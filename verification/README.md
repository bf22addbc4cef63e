# ACIP verification model

A Dafny model of the step-by-step protocols and the algorithmic cores of the ACIP
commerce-intelligence platform, with proofs of what they guarantee over every input,
every run or every interleaving:

* **Gateway** (`Gateway`, `Freshness`, `Staleness`, `Erasure`, `Spending`, `Router`,
  `Assistant`, `CacheKeys`, `Wallet`, `Pricing`, `Margins`): chat turns climb cache, rule, search, local and
  frontier rungs while sync writers, index refreshes, erases, switches and other turns
  interleave. One machine (`Gateway`) has a step for each access to a shared store;
  `Router.GatewayRouter` is the turn as the source writes it, and is proved to be a run of
  that machine. Over all runs: when cached answers are fresh (`Freshness`, `Staleness`, `Erasure`),
  spending stays within the cap and one charge per turn in flight, and the three records
  of spending agree (`Spending`).
* **Catalogue sync** (`Timestamps`, `Ingest`, `Paging`, `Reconcile`): versioned upserts in
  any order, paged pulls, a delta pass with a watermark, and its convergence.
* **Provider failover** (`Failover`, `Registry`): retries, chains, the cached snapshot.
* **Billing** (`Billing`): orders, payment by three routes, grants, invoices, refunds,
  proration, renewals.
* **Sign-in** (`Sessions`, `AdminLogin`, `Tokens`): refresh rotation, the lockout ladder,
  TOTP steps, the compact token codec.
* **Rate limiting** (`RateLimit`) and **ranking metrics** (`Metrics`, `Evaluation`).

`Sorting`, `Rounding` and `Wrappers` are shared helpers. Redis, PostgreSQL and
Elasticsearch are maps, lists and counters; classes hold them as fields where the source
updates objects in place, each method is tied to a function of the old state, and the
properties are proved about runs of those functions. Clocks, drawn ids, the classifier,
retrieval ranking, provider replies, SHA-256, HMAC and JSON are parameters. Reals stand
for floats; database rounding is written out where it decides a property.

Some promises turn out to hold only under a condition. Each has a lemma for the exact
condition, and for a promise the code breaks a concrete run or input:

* NDCG@k stays in [0, 1] under every judgement exactly when the first k results are
  distinct, or, for a negative k, when the slice keeps one result at most
  (`Metrics.NdcgNormalisedIffDistinctTop`).
* The "p95" latency covers 95% of n samples exactly when n % 20 is below 10 or n % 40 is
  10 (`Evaluation.P95CoversIff`).
* String order of timestamps is version order within one zone suffix; with mixed suffixes
  the two disagree exactly as `Timestamps.MixedZonesDisagree` and, for equal clock times,
  `Timestamps.EqualClocksAgreeIff` say.
* A delta pass repairs a product exactly when it changed after the watermark or was
  current (`Reconcile.PassRepairsIff`); a tombstone for a product back on sale, or an edit
  stamped no later than the watermark, is never repaired by later passes.
* Without versions, two deliveries leave the same index exactly when they write every
  document equally often and last with the same body (`Ingest.UnversionedSameIff`).
* Two tenants can share a document exactly when one's id is the other's, a colon and
  perhaps more (`Ingest.DocIdsCollideIff`).
* The WooCommerce pull is complete for page sizes up to 100; above, the first clamped page
  looks like the last one (`Paging.FetchWooChanged`).
* Elasticsearch refreshes with a delay and nothing waits for it. In every state reached
  without an erase, cached answers from then on miss nothing published, as long as later
  searches see it, exactly when every search answer kept under the present version, or
  about to be, saw all that is published (`Staleness.DelayKeepsFreshIff`). A run that ends
  otherwise: `Staleness.DelayServesStale`.
* Redis spend, usage costs and ledger debits are equal in every run exactly for charges in
  whole ten-thousandths; the columns round others (`Spending.RecordsAgreeIffWhole`).
* Erasing a tenant resets its data version and leaves the cached answers. From then on
  cached answers miss nothing published exactly when, at the erase, no answer cached or in
  flight is a search answer, except under version 0 and having seen all that is published
  (`Erasure.EraseKeepsFreshIff`); otherwise the versions climb back to the old keys. A run
  that gets there: `Erasure.FailureIsReachable`.
* Every turn a local endpoint answers is billed at the local rate exactly when every local
  endpoint of the chain is named "local" (`Router.LocalServedBilledLocalIff`, and
  `Router.RoutesBilledLocalIff` for the admin routes and either switch); the comment at
  packages/acip_gateway/router.py:190-192 promises it for the local endpoint.
* The output guardrail replaces an ungrounded reply after the router has stored it: the
  shopper sees an ungrounded reply exactly when the cache holds one for the question
  (`Assistant.UngroundedShownIff`), so asking again shows what was replaced
  (`Assistant.AskedAgainIff`).
* An accepted pricing update keeps the margin promise exactly when the credit value is at
  least 0.000000005 USD; the editor accepts smaller values, which the column stores as 0
  (`Pricing.AcceptedUpdateKeepsMargin`).
* The reported gross margin adds up rounded rows and can show a loss by rounding alone. It
  never does exactly when no cost at which the provider-cost column jumps does, which
  leaves finitely many to look at when there is a margin (`Margins.ReportsNeverLoseIff`).
  At v USD a credit a margin of 100 + 10000 v percent suffices, without a margin only a
  credit worth a cent does, and the default pricing loses
  (`Margins.AmpleMarginNeverLoses`, `Margins.NoMarginNeverLosesIff`,
  `Margins.DefaultReportsLoss`).
* An order is invoiced at most once exactly when nobody pays for it again after a refund
  (`Billing.InvoicedOnceIff`).
* Renewals leave no active subscription expired, and a second run changes nothing,
  exactly when the trial plan exists or nothing was to be cancelled
  (`Billing.RenewalsCompleteIff`, `Billing.RenewalsSettleIff`).
* The lockout ladder bounds an account's failures in a span exactly when lockouts take
  time (`AdminLogin.FailuresBoundedIff`).
* A TOTP code is never accepted twice at sign-in, but one just used there still switches
  the second factor off; a code of one step does so exactly from the step before its own
  to the one after
  (`AdminLogin.UsedCodeAcceptedIff`, `AdminLogin.OneStepCodeReusableIff`,
  `AdminLogin.UsedCodeStillDisables`).
* With failover switched off and no admin routes, the environment's frontier is still
  followed by its local model (`Registry.EmptyConfigurationIgnoresSwitch`).

`dafny verify dfyconfig.toml` checks the whole project.

## Model

| member | source | states |
|---|---|---|
| Freshness.HitIsFresh | packages/acip_cache/l1.py:19-48 | In every reachable interleaving whose searches see what is published, what the exact cache would give a turn is a rule's answer to the same words, or the answer and the top five results of a search (a provider's reply, or the search answer for the documents seen) of an index that held every change published under a version up to the turn's |
| Freshness.NothingPublishedIsMissed | packages/acip_assistant/rag.py:52-62 | A turn that reads the version with Redis up never gets a cached search answer missing a change published before it began, however writers and turns interleave until its lookup, where searches see what is published |
| Staleness.DelayKeepsFreshIff | packages/acip_gateway/router.py:125-206 | In every state reached without an erase, however late the index has refreshed, no continuation whose searches see what is published gives a turn a cached search answer missing a change published before it began, exactly when every search answer cached under the present version, or searched by a turn in flight to be kept under it, saw all that is published |
| Freshness.PromptSearchesSee | packages/acip_sync/ingest.py:46-56 | Every search sees what is published where the index answers from its latest state |
| Freshness.StepKeepsSourced | packages/acip_gateway/router.py:125-206 | Every step, erases included, keeps each cached and pending answer what its origin says: a rule's text, or the answer and citations from the index state searched |
| Freshness.StepKeepsCovered | packages/acip_gateway/router.py:125-206 | Every step of a turn, a writer, a refresh, an expiry or a switch whose search sees what is published keeps all cached and pending answers covering the version they are stored under |
| Freshness.StepExtends | packages/acip_cache/data_version.py:25-32 | Published versions are final and later publications get strictly later versions; the index history only grows |
| Freshness.AdvanceCovers | services/worker/tasks.py:69-77 | Because writers write before they publish and turns read the version before they search, a turn's next phase covers its version whenever its last did |
| Erasure.EraseKeepsFreshIff | services/api/routers/admin_governance.py:40-48 | After an erase in any reachable state, no continuation gives a turn a cached search answer missing a change published before it began, exactly when no cached answer and no turn in flight holds a search answer kept under a version from 1 on or missing a published change |
| Erasure.FailureIsReachable | services/api/routers/admin_governance.py:40-48 | For any shop and question without a rule, a run from the empty stores to a state in which an erase leads to such an answer |
| Staleness.DelayServesStale | packages/acip_sync/ingest.py:46-56 | For any shop and question without a rule, a run without erases that keeps an answer under version 1 though it misses the change published under version 1, and a next turn is given it |
| Spending.SpendingIsBounded | packages/acip_gateway/budget.py:71-90 | With a positive cap, at most n turns between admission and charge and no charge above `most`, everything charged by turns admitted to paid rungs is at most cap + n * most (+ what Redis failed to count), in every interleaving |
| Spending.StepKeepsBound | packages/acip_gateway/router.py:158-198 | Each step keeps paid charges plus one reserve per turn in flight within the cap plus n reserves |
| Spending.AdvanceMoves | packages/acip_gateway/budget.py:81-82 | A move admits a turn to paid rungs only while spending is below a positive cap, and takes one out of flight only by charging or abandoning it |
| Spending.ZeroCapNeverLimits | packages/acip_gateway/budget.py:81-82 | No amount of spending makes turns local exactly when the cap is not positive and no kill switch is on |
| Spending.SpendRecordsAgree | services/api/runtime.py:31-37 | Once every charged turn wrote its rows, Redis spend, usage-event costs and ledger debits agree up to half a last place per row, and to the last place if all charges are whole ten-thousandths |
| Spending.RecordsAgreeIffWhole | packages/acip_billing/ledger.py:19-31 | The charges that keep the three records equal in every run are exactly the whole ten-thousandths |
| Spending.StepKeepsAgreed | packages/acip_billing/ledger.py:19-31 | Every step keeps the three records in agreement counting what charged turns still owe to each table |
| Router.GatewayRouter.Record | packages/acip_gateway/router.py:77-106 | Records the priced charge in Redis, the usage events and, when positive, the ledger, and nothing else |
| Router.GatewayRouter.StoreAnswer | packages/acip_gateway/router.py:202-206 | Stores the answer in the exact cache under its key when the store is up |
| Router.GatewayRouter.AskProviders | packages/acip_gateway/router.py:177-188 | The reply is that of the first endpoint tried that succeeds, after contacting exactly those before it; preferring local contacts local endpoints only |
| Router.GatewayRouter.Decide | packages/acip_gateway/router.py:125-199 | The exit taken, the answer shown and the answer kept, before anything is recorded |
| Router.GatewayRouter.Route | packages/acip_gateway/router.py:166-197 | Search, degraded and generated exits; a local_only turn is tried on local endpoints only, and the reply comes from the last endpoint contacted |
| Router.GatewayRouter.Ascend | packages/acip_gateway/router.py:158-197 | The same for the budget's verdict and the documents the index shows |
| Router.GatewayRouter.AnswerTurn | packages/acip_gateway/router.py:108-200 | The five exits other than the semantic cache: result, price, stored answer and new state of every store, determined by the stores, the chain and the endpoints' behaviour; local_only turns contact local endpoints only; cached and templated answers are free and contact none |
| Router.GatewayRouter.Conclude | packages/acip_gateway/router.py:198-200 | What every exit leaves in each store: its records and, if it keeps one, its answer |
| Router.TurnIsRun | packages/acip_gateway/router.py:108-200 | A whole turn, run alone, is a run of the stepwise machine, of its own steps only, ending in the state the router leaves |
| Router.FrontierIsLastResort | packages/acip_gateway/router.py:125-199 | A turn is billed at the frontier rate exactly when no cache, rule, search or local rung serves it and budget is left; answers are stored unless cached or degraded |
| Router.LocalServedBilledLocalIff | packages/acip_gateway/router.py:190-198 | Every turn a local endpoint of a chain answers, for all questions, states and endpoint behaviours, is billed local exactly when every local endpoint of the chain is named "local"; otherwise a turn exists that fails over to one and pays a frontier credit |
| Router.RoutesBilledLocalIff | packages/acip_gateway/registry.py:263-278 | For the chain of any admin configuration: exactly when every local endpoint routed to is named "local", or with failover off the first of them |
| Router.PriceNonNegative | services/api/runtime.py:71-82 | The recorded credits are never negative, and 0 for cache and rule answers even when the pricer fails |
| Assistant.RagAssistant.Ask | packages/acip_assistant/rag.py:44-81 | Refused questions change nothing; otherwise the turn's result with an ungrounded reply of its own replaced, and the unreplaced answer in the cache |
| Assistant.UngroundedShownIff | packages/acip_assistant/rag.py:64-70 | A shopper sees a provider's ungrounded reply exactly when the cache answers the question with one |
| Assistant.AskedAgainIff | packages/acip_gateway/router.py:198-206 | After a provider answered, asking again in the same words shows its ungrounded reply exactly when it was ungrounded, stored and found, though the first answer was replaced; if storing failed, exactly when an older ungrounded reply is still cached |
| CacheKeys.CacheKeyInjective | packages/acip_cache/l1.py:19-23 | Without a digest collision on the two inputs, keys are equal exactly when tenant, words and data version are, for every tenant id |
| CacheKeys.HashedInjective | packages/acip_cache/l1.py:20-22 | The hashed text determines tenant, normalised question and version: a normalised question never holds the separator |
| CacheKeys.SameKeyTextIffSameWords | packages/acip_cache/l1.py:15-16 | Two questions normalise alike exactly when they have the same words up to letter case |
| CacheKeys.NormalizeTwice | packages/acip_cache/l1.py:15-16 | Normalising is idempotent |
| Wallet.WalletBudgetGuard.WalletBalance | packages/acip_billing/wallet.py:35-61 | The balance comes from an unexpired cached value, else from the ledger; a ledger read is cached for a TTL when Redis is up |
| Wallet.WalletBudgetGuard.State | packages/acip_billing/wallet.py:63-70 | Local-only exactly when the base guard says so or a known balance is not positive |
| Wallet.WalletBudgetGuard.InvalidateWallet | packages/acip_billing/wallet.py:72-79 | Drops the cached balance when Redis is up |
| Wallet.BalanceIsRecent | packages/acip_billing/wallet.py:35-61 | A known balance is one the ledger had less than a TTL ago, through any outages and invalidations |
| Wallet.EmptyWalletStopsPaidTurns | packages/acip_billing/wallet.py:63-70 | A wallet empty for a whole TTL is seen as empty by every read the ledger answers |
| Wallet.GrantCountsAtOnce | packages/acip_billing/wallet.py:72-79 | After an invalidation the next read reports the ledger itself |
| Pricing.TurnIsPriced | packages/acip_billing/pricing.py:68-105 | Every turn's credits and cost are non-negative, and token-priced credits are worth the cost plus the margin |
| Pricing.GrossMargin | services/api/routers/admin_ai_finance.py:73-84 | At one pricing the gross margin on the charges, before rows are rounded, is margin% of cost plus the worth of flat credits, and never a loss |
| Margins.ReportedMargin | services/api/routers/admin_ai_finance.py:27-32 | The reported gross margin, a sum of rounded rows, is within half a last place of each column a row of that, so a loss of no more than so much |
| Margins.ReportsNeverLoseIff | services/api/routers/admin_ai_finance.py:73-84 | For every run of turns at a pricing the reported margin is no loss exactly when it is none for any single cost, and exactly when it is none at the jumps of the provider-cost column too tight for the margin, with a margin finitely many |
| Margins.NoMarginNeverLosesIff | services/api/routers/admin_ai_finance.py:73-84 | Without a margin it never is a loss exactly when a credit is worth 0.01 USD |
| Margins.AmpleMarginNeverLoses | packages/acip_billing/pricing.py:60-64 | With a margin of at least 100 + 10000 v percent at v USD a credit, it never is a loss |
| Margins.DefaultReportsLoss | packages/acip_billing/pricing.py:34-41 | At the default pricing it is: one token at 0.005 USD a million is reported as a loss |
| Pricing.MarginOfTurns | packages/acip_billing/pricing.py:53-105 | The same for any run of turns, whatever rungs, models and tokens they used |
| Pricing.NeverSilentlyFree | packages/acip_billing/pricing.py:86-105 | Local turns always cost credits; frontier turns are free exactly when a set price sheet yields no cost |
| Pricing.AcceptedUpdateKeepsMargin | services/api/routers/admin_ai_routing.py:224-246 | An accepted pricing update keeps the margin promise exactly when the credit value is at least half the column's last place |
| Pricing.RoundIsNear | db/migrations/0018_ai_providers_pricing.sql:55-63 | A NUMERIC column is off by at most half its last place, and exact on whole ones |
| Reconcile.Converges | services/worker/tasks.py:191-236 | After any mix of edits, removals, lost, repeated and stale webhooks and failed passes, one completed pass puts the store's current version of every live product in the index |
| Reconcile.PassRepairsIff | services/worker/tasks.py:214-235 | A completed pass makes a live product current exactly when it was current or changed after the watermark |
| Reconcile.RunKeepsInv | services/worker/tasks.py:160-236 | Over every run, whatever lies behind the watermark is current and the watermark never goes back |
| Reconcile.PassAdvances | packages/acip_sync/reconcile.py:57-61 | A pass never moves the watermark back, and a failed one leaves it |
| Reconcile.MarkIsLatest | packages/acip_sync/reconcile.py:57-61 | The watermark a pass computes by comparing texts is the latest stamp among the products it pulled |
| Reconcile.PulledIffAhead | packages/acip_sync/fetch.py:110-114 | A live product is pulled exactly when it changed after the watermark |
| Reconcile.SinceIsWatermark | scripts/pilot_store.py:97-101 | The text a store compares with is the watermark in its own layout |
| Reconcile.FailedPassKeepsCurrent | services/worker/tasks.py:224-230 | A failed pass unmakes nothing, wherever it stopped |
| Reconcile.MissedBehindWatermarkStays | services/worker/tasks.py:214-235 | A version missed behind the watermark stays missed through every pass |
| Reconcile.LateTombstoneIsNotRepaired | packages/acip_sync/ingest.py:61-71 | A tombstone for a live product behind the watermark leaves it missing |
| Reconcile.EditAtWatermarkIsNotRepaired | packages/acip_sync/reconcile.py:57-61 | So does an edit stamped no later than the watermark whose webhook is lost |
| Reconcile.SyncWorker.Reconcile | packages/acip_sync/reconcile.py:32-61 | Delivers the pulled products in order up to the failure, and computes count and high watermark when there is none |
| Reconcile.SyncWorker.RecordSync | services/worker/tasks.py:160-175 | Run time and status are replaced, an absent watermark keeps the stored one |
| Reconcile.SyncWorker.FetchChangedSince | packages/acip_sync/fetch.py:133-160 | With the clients' page size either store's whole listing is pulled |
| Reconcile.SyncWorker.ReconcileOne | services/worker/tasks.py:191-236 | Index, data version, watermark, run time and status after an unconfigured, failed or completed pass; an unknown tenant changes nothing |
| Ingest.IngestOrderIndependent | packages/acip_sync/ingest.py:37-58 | Two deliveries of the same versioned events, in any order and with any repetition, leave the same index |
| Ingest.DeliverKeepsHighest | packages/acip_sync/ingest.py:46-56 | Any delivery leaves, per document, the highest version seen and the content that came with it |
| Ingest.LastUnversionedWins | packages/acip_sync/ingest.py:28-29 | After any deliveries, a write without a version replaces its document, raises its version and touches no other |
| Ingest.UnversionedSameIff | packages/acip_sync/ingest.py:28-29 | Two unversioned deliveries leave the same index exactly when they write each document equally often and last with the same body |
| Ingest.DocIdInjective | packages/acip_sync/ingest.py:22-23 | Document ids tell tenants and products apart while tenant ids hold no colon |
| Ingest.DocIdCollides | packages/acip_sync/ingest.py:22-23 | With a colon in a tenant id two products share a document |
| Ingest.DocIdsCollideIff | packages/acip_sync/ingest.py:22-23 | Two tenants can share a document exactly when one id is the other's followed by a colon and anything |
| Ingest.Catalogue.Put | packages/acip_sync/ingest.py:47-57 | Refuses exactly the writes older than the stored document, else stores version and body |
| Ingest.Catalogue.UpsertProduct | packages/acip_sync/ingest.py:37-58 | The index after an upsert, a conflict being swallowed |
| Ingest.Catalogue.TombstoneProduct | packages/acip_sync/ingest.py:61-71 | Removes the product's document whatever its version; a missing one is no error |
| Timestamps.StringOrderIsVersionOrder | packages/acip_sync/ingest.py:26-34 | For stamps of one layout and zone suffix, text order is the order of epoch-second versions, and equal texts are equal versions (section 5.1 of RFC 3339) |
| Timestamps.MixedZonesDisagree | packages/acip_sync/reconcile.py:58-60 | With different suffixes text order is the order of clock times, then of suffixes, and version order that of clock times less offsets, so where they disagree |
| Timestamps.EqualClocksAgreeIff | packages/acip_sync/reconcile.py:58-60 | At equal clock times they agree exactly when the larger suffix is west and the offsets differ |
| Timestamps.EarlierIsSmaller | packages/acip_sync/ingest.py:31-32 | Field-wise earlier stamps have smaller epoch seconds, across months and leap years, and conversely |
| Timestamps.StampOrder | packages/acip_sync/reconcile.py:58-60 | Comparing rendered stamps as strings is comparing them field by field |
| Timestamps.ParseRender | packages/acip_sync/ingest.py:31 | Whatever parses is the rendering of what it parses to |
| Timestamps.RenderParse | packages/acip_sync/ingest.py:31 | A rendered stamp parses to itself |
| Timestamps.WatermarkRoundTrip | packages/acip_sync/fetch.py:110-114 | The stored watermark's ISO form, cut back for either store, is the product's own text again |
| Paging.FetchWooChanged | packages/acip_sync/fetch.py:53-85 | Terminates with the whole listing, in order, each item once, for page sizes up to the server's 100 or listings that short; else with the first hundred items |
| Paging.FetchOpenCartChanged | packages/acip_sync/fetch.py:103-127 | Terminates with the whole listing for every page size, despite clamping |
| Paging.ListingIsChanged | scripts/pilot_store.py:98-101 | The listing holds each changed product as often as the store does, nothing else, oldest change first |
| Paging.NextPage | scripts/pilot_store.py:113-121 | A window extends the pages before it, and is short exactly when the listing ends inside it |
| Failover.CallWithRetry | packages/acip_gateway/retry.py:40-58 | Calls until the endpoint settles: result, number of attempts, and delays b, then min(2^(i-1) b, 5 s) |
| Failover.SucceedsIff | packages/acip_gateway/retry.py:29-58 | An endpoint succeeds exactly when a call within its retries replies after transient failures only |
| Failover.DelayDoubles | packages/acip_gateway/retry.py:47-58 | The loop's doubled and capped delay is the closed form; the first delay is not capped |
| Failover.WaitIsBounded | packages/acip_gateway/retry.py:47-58 | Waiting costs at most the first backoff and five seconds for each later retry |
| Failover.TryEach | packages/acip_gateway/registry.py:315-336 | The first endpoint that succeeds answers after contacting exactly those before it |
| Failover.TryChain | packages/acip_gateway/failover.py:47-65 | The same over the eligible endpoints, with at most the sum of their retries plus one attempts |
| Failover.ServeServes | packages/acip_gateway/registry.py:315-336 | The reply that the endpoints' behaviours determine comes from the first that settles with one |
| Failover.FailsIffAllFail | packages/acip_gateway/failover.py:50-65 | Generation raises exactly when every eligible endpoint fails |
| Failover.LocalSuffices | packages/acip_gateway/failover.py:43-45 | Preferring local keeps a chain that ends local ending in the same endpoint |
| Failover.ProviderChain.Make | packages/acip_gateway/failover.py:36-41 | Refuses exactly the chains that are empty or do not end local |
| Failover.ProviderChain.Generate | packages/acip_gateway/failover.py:47-65 | While the local terminal succeeds it never fails; preferring local contacts local endpoints only |
| Registry.ChainEndsLocal | packages/acip_gateway/registry.py:263-278 | For every admin configuration and switch the chain is not empty, ends local, and is an ordered subsequence of admin routes plus environment chain |
| Registry.ToggleKeepsTerminal | packages/acip_gateway/registry.py:88-99 | The failover switch keeps the primary and a local terminal, and off leaves one endpoint or two |
| Registry.EmptyConfigurationIgnoresSwitch | packages/acip_gateway/registry.py:272-274 | Without admin routes the switch is not consulted, and would have changed nothing |
| Registry.SwitchedOffKeepsFirstLocal | packages/acip_gateway/registry.py:88-99 | Switched off, a chain that ends local keeps its first local endpoint and no other |
| Registry.Load | packages/acip_gateway/registry.py:203-218 | Groups the routes by task in order, with a zero or absent backoff read as 250 ms |
| Registry.ProviderRegistry.GetSnapshot | packages/acip_gateway/registry.py:152-164 | Fresh, reloaded, stale or empty snapshot; one older than the TTL only when reloading just failed |
| Registry.ProviderRegistry.Drop | packages/acip_gateway/registry.py:302-304 | Invalidation empties the cache |
| Registry.ProviderRegistry.Endpoints | packages/acip_gateway/registry.py:263-278 | In every snapshot state the chain of the cached tables, ending local |
| Registry.ProviderRegistry.Generate | packages/acip_gateway/registry.py:315-336 | Resolves the chain anew and is served by it; preferring local tries local endpoints only |
| Registry.SnapshotHasOrigin | packages/acip_gateway/registry.py:152-164 | Over any history, a cached snapshot comes whole from one earlier read with no invalidation since: a load that succeeded, or a failed one with nothing to fall back on |
| Registry.OutageKeepsSnapshot | packages/acip_gateway/registry.py:158-161 | An outage, however long, keeps serving the last snapshot |
| Billing.PaidOrderGrantsOnce | packages/acip_billing/subscription.py:153-268 | Over any run without refunds, each paid order was settled by one event, and the ledger holds exactly one grant for it, of what it bought: the top-up's credits or the credits of its plan as the plans stood then (none if not positive) |
| Billing.BillingBooked | packages/acip_billing/subscription.py:201-268 | Over any run, refunds included: order grants in the ledger are exactly the invoices' credits in order, invoices fit their orders, every needed plan is still present |
| Billing.InvoiceFromPayment | packages/acip_billing/subscription.py:226-268 | Over any run, refunds included, each invoice comes from an event that settled its order, with the order's tenant and amount and the credits it bought then |
| Billing.BillingConserved | packages/acip_billing/subscription.py:201-268 | Over any run without refunds: one invoice for each paid order and none else, order grants in the ledger exactly the invoices' credits in order, every needed plan still present |
| Billing.InvoicedOnceIff | packages/acip_billing/subscription.py:215-226 | Over any run with refunds, orders are invoiced at most once exactly when nobody pays for an invoiced, refunded order |
| Billing.RefundReopensOrder | services/api/routers/admin_billing_ops.py:142-166 | Paying a refunded order issues a second invoice and grants its credits a second time |
| Billing.PaymentIsIdempotent | packages/acip_billing/subscription.py:215-223 | Paying or failing a paid order changes nothing |
| Billing.RenewalsSplit | packages/acip_billing/subscription.py:285-309 | One run touches only expired active subscriptions: cancelled ones get the trial plan, their tenants its code and exactly one grant, the others go past due |
| Billing.RenewalsCompleteIff | packages/acip_billing/subscription.py:302-308 | No active subscription stays expired exactly when the trial plan exists or none was to be cancelled |
| Billing.RenewalsSettleIff | packages/acip_billing/subscription.py:285-309 | A second run at the same instant selects nobody, and changes nothing exactly when the trial plan exists or nothing was to be cancelled |
| Billing.ProrationWithinPrice | packages/acip_billing/subscription.py:39-47 | The credit lies between 0 and the old price, is all of it for a whole period left and 0 after the end, and never grows by waiting |
| Billing.PreviewIsCharged | packages/acip_billing/subscription.py:60-101 | The preview equals the order's amount exactly unless an inactive tenant meets a negative price |
| Billing.BillingBooks.CreateOrder | packages/acip_billing/subscription.py:77-121 | Adds the prorated pending order, or nothing for an unknown plan |
| Billing.BillingBooks.CreateTopUp | packages/acip_billing/subscription.py:124-150 | Adds the pending top-up priced by the configured rate, or nothing for no credits |
| Billing.BillingBooks.ActivatePlan | packages/acip_billing/subscription.py:153-186 | Moves tenant and subscription to the plan and grants its credits, or does nothing without the plan |
| Billing.BillingBooks.MarkOrderPaid | packages/acip_billing/subscription.py:201-268 | Order, grant, subscription and invoice after payment; nothing on a paid or unknown order |
| Billing.BillingBooks.Callback | services/api/routers/billing_webhooks.py:34-83 | A verified payment settles the order, anything else fails a pending one |
| Billing.BillingBooks.Webhook | services/api/routers/billing_webhooks.py:86-120 | Only a signed "paid" event settles the order |
| Billing.BillingBooks.DeletePlan | services/api/routers/admin_plans.py:185-200 | Refused while a tenant, subscription or order refers to the plan |
| Billing.BillingBooks.ProcessRenewals | packages/acip_billing/subscription.py:285-309 | The books after the past-due update and the downgrades one by one |
| Sessions.EachJtiRefreshesOnce | services/api/routers/auth.py:266-303 | Over any run each refresh jti succeeds at most once |
| Sessions.ReplayKillsSessions | services/api/routers/auth.py:274-280 | Replaying a revoked jti ends, for good, every session its user then has |
| Sessions.LiveWithinSignIns | services/api/routers/auth_password.py:135-148 | A user's live sessions never exceed logins and signups since the last mass revocation |
| Sessions.LiveUsersSignedIn | services/api/routers/auth.py:136-145 | Over any run every session, however often rotated, goes back to its user's signup or a login with the right password while not locked |
| Sessions.DisabledGainsNothing | services/api/routers/auth.py:187-210 | A wrong password or a locked account changes nothing, and a disabled user gains no session by any call |
| Sessions.StepLives | services/api/routers/admin_auth.py:170-201 | How each call changes a user's live sessions: a refresh swaps one for one |
| Sessions.SessionStore.Signup | services/api/routers/auth.py:108-145 | A new user and session, or a conflict that changes nothing |
| Sessions.SessionStore.Login | services/api/routers/auth.py:187-231 | A session exactly for an active user, not locked, with the right password |
| Sessions.SessionStore.Refresh | services/api/routers/auth.py:266-303 | Rotation, reuse detection, disabled users and unknown tokens |
| Sessions.SessionStore.Logout | services/api/routers/auth.py:311-328 | Revokes the presented session |
| Sessions.SessionStore.ResetPassword | services/api/routers/auth_password.py:135-148 | Revokes every session of the user |
| AdminLogin.LadderBound | services/api/routers/admin_auth.py:75-122 | Any span without success or unlock counts at most max_attempts failures (at least one) plus one per lockout that fits into it |
| AdminLogin.ClimbOne | services/api/routers/auth.py:191-210 | One more counted failure keeps that bound: none is counted before a lockout is over |
| AdminLogin.LockMatchesCounter | services/api/routers/admin_auth.py:81-134 | Over any run an account is locked exactly when its attempts are used up; a success or an unlock clears both |
| AdminLogin.NoLockoutNoBound | services/api/routers/admin_auth.py:82-87 | A lockout of no length never locks |
| AdminLogin.FailuresBoundedIff | services/api/routers/admin_auth.py:75-93 | The failures an account can collect in a span of a given length are bounded exactly when lockouts take time |
| AdminLogin.AcceptedStepsIncrease | services/api/routers/admin_auth.py:100-125 | While a secret stays enrolled, accepted TOTP steps strictly increase from the confirming one (section 5.2 of RFC 6238) |
| AdminLogin.UsedCodeIsRefused | services/api/routers/admin_auth.py:107-122 | A code of no step after the last accepted one is refused |
| AdminLogin.UsedCodeAcceptedIff | services/api/routers/admin_auth_totp.py:127-135 | After a sign-in and any history that keeps the secret enrolled, exactly when its code is accepted again: at sign-in for a step after the last accepted one, by disable for any step of the window, by confirm never |
| AdminLogin.OneStepCodeReusableIff | services/api/routers/admin_auth_totp.py:127-135 | A code of one step only never signs in again, and disables, with the password, exactly from one step before its own to one after |
| AdminLogin.UsedCodeStillDisables | services/api/routers/admin_auth_totp.py:127-135 | An account, a code and times at which it happens |
| AdminLogin.VerifyTotpStep | packages/acip_auth/totp.py:42-61 | The latest matching step within the window, or none exactly when nothing matches |
| AdminLogin.Account.Login | services/api/routers/admin_auth.py:65-147 | Every outcome of a sign-in with the counters and last step it leaves |
| AdminLogin.Account.CountFailure | services/api/routers/admin_auth.py:81-93 | One more attempt, locked once they are used up |
| AdminLogin.Account.Unlock | services/api/routers/admin_security.py:88-93 | Clears the ladder and nothing else |
| AdminLogin.Account.Enroll | services/api/routers/admin_auth_totp.py:53-62 | Stores a new secret only with the password and while not enabled |
| AdminLogin.Account.Confirm | services/api/routers/admin_auth_totp.py:87-100 | Enables enforcement on a matching code and uses up its step |
| AdminLogin.Account.Disable | services/api/routers/admin_auth_totp.py:125-135 | Needs the password and any live code |
| Tokens.B64UrlRoundTrip | packages/acip_auth/tokens.py:34-40 | Unpadded base64url is inverted for every byte string (sections 4 and 5 of RFC 4648) |
| Tokens.B64UrlShape | packages/acip_auth/tokens.py:34-35 | Its output holds only alphabet characters, so no '.' and no padding |
| Tokens.MintedSplits | packages/acip_auth/tokens.py:52-55 | A minted token splits into exactly its three segments (section 7.1 of RFC 7515) |
| Tokens.MintedTokenDecodes | packages/acip_auth/tokens.py:105-127 | A minted token decodes to its claims exactly when it is unexpired with the right issuer, and otherwise fails with the error the source raises |
| Tokens.OtherSecretRefused | packages/acip_auth/tokens.py:113-116 | Under another secret it is accepted exactly if the signatures agree |
| Tokens.AcceptedIsAuthentic | packages/acip_auth/tokens.py:109-127 | Whatever is accepted carries a valid signature over its first two segments, the issuer and a future expiry |
| RateLimit.RateLimiter.Allow | packages/acip_core/ratelimit.py:19-31 | Counts the call in its tenant's minute and compares with the limit; without Redis allows and counts nothing |
| RateLimit.CounterIsExact | packages/acip_core/ratelimit.py:23-28 | A minute's counter equals its calls and never expires inside its own minute |
| RateLimit.MinuteAdmits | packages/acip_core/ratelimit.py:26-29 | Each minute admits exactly as many calls as were made, up to the limit |
| RateLimit.SlidingIntervalBound | packages/acip_core/ratelimit.py:19-31 | Any interval of at most sixty seconds admits at most twice the limit |
| RateLimit.BoundIsReached | packages/acip_core/ratelimit.py:23-29 | Two bursts a second apart reach that bound |
| Metrics.Dcg | eval/metrics.py:14-19 | The loop computes the discounted gain of the first k ranks |
| Metrics.NdcgAtK | eval/metrics.py:22-37 | Normalised by the ideal order's gain, 0 when that is 0 |
| Metrics.NdcgInUnitInterval | eval/metrics.py:22-37 | NDCG@k lies in [0, 1] for every cutoff from 0, grade map and list whose first k products are distinct, for any positive decreasing discount |
| Metrics.NdcgOneIffIdealOrder | eval/metrics.py:22-37 | With something relevant to find it is 1 exactly when the first k ranks carry the ideal grades |
| Metrics.TopIsBest | eval/metrics.py:34-37 | No selection of the judged grades gains more in its first n ranks than the ideal order |
| Metrics.DominationDiscounted | eval/metrics.py:14-19 | A list that gains at least as much in every prefix gains at least as much discounted |
| Metrics.DistinctGradesArePart | eval/run_eval.py:84-86 | Distinct results use each judged grade at most as often as it was given |
| Metrics.NdcgNormalisedIffDistinctTop | eval/run_eval.py:81-86 | For every result list and cutoff, NDCG stays within [0, 1] under all judgements exactly when the first k results are distinct, or a negative k keeps one at most |
| Metrics.RepeatedResultExceedsOne | eval/run_eval.py:81-86 | Any list with a product repeated among its first k results exceeds 1 under some judgement |
| Metrics.NegativeCutoffExceedsOne | eval/metrics.py:14-37 | So does any list of which a negative cutoff keeps two results |
| Metrics.NdcgNormalisedIffCutoffNonNegative | eval/metrics.py:22-37 | NDCG stays within [0, 1] for all judgements and lists of distinct products exactly for cutoffs from 0 |
| Evaluation.Evaluate | eval/run_eval.py:72-95 | The loop reports the means of the queries' NDCG and precision, the share without results, the p95 latency and the number of queries |
| Evaluation.ReportInUnitInterval | eval/run_eval.py:72-95 | The means and the zero-result rate lie in [0, 1] for every golden set, cutoff from 0 and search whose first k results are distinct; the rate is 0 exactly when every query found something |
| Evaluation.PrecisionInUnitInterval | eval/metrics.py:40-50 | Precision lies in [0, 1] and is 1 exactly when there are results and all of the first k are relevant |
| Evaluation.P95CoversRank | eval/run_eval.py:64-69 | At least the rounded rank's number of samples lie at or below the reported latency |
| Evaluation.P95CoversIff | eval/run_eval.py:64-69 | It covers 95% of every n samples exactly when n % 20 < 10 or n % 40 = 10 |
| Sorting.SortSorts | scripts/pilot_store.py:98-98 | The stores' and metrics' sorting yields an ordered rearrangement |
| Rounding.RoundIsNearest | packages/acip_billing/subscription.py:47-47 | Rounding moves a value by at most half a unit |

## Left out

- Freshness.HitIsFresh: the semantic (L2) cache is left out, so turns are those whose question has no embedding; its entries carry no data version, and the source promises no freshness for them.
- Erasure.EraseKeepsFreshIff: an erase's deletions go into the index as one step with the reset of the version, which announces nothing.
- Spending.SpendingIsBounded: the cap is fixed during a run, and a turn that dies between admission and charge counts as in flight unless it is abandoned.
- Spending.SpendRecordsAgree: PostgreSQL is up for the usage and ledger rows; floats that Redis adds are reals.
- Router.GatewayRouter.AnswerTurn: the semantic-cache exit is left out, and the regular-expression classifier, prompt building, token counts and latency are parameters or left out.
- Router.GatewayRouter.StoreAnswer: the semantic cache's copy of the answer is left out.
- Assistant.RagAssistant.Ask: session memory is left out, and the texts of its refusal and replacement are parameters.
- CacheKeys.SameKeyTextIffSameWords: letters outside ASCII are not folded.
- Pricing.MarginOfTurns: pricing does not change during the run.
- Timestamps.ParseRender: of the layouts `fromisoformat` takes, only second precision with `T` or a space, and no zone, `Z` or a `+hh:mm` or `-hh:mm` offset, is modelled.
- Reconcile.Converges: the store stands still during a pass, edits carry later stamps than the watermark and the product's earlier ones, tombstones come only for removed products, and zoneless stamps are read in UTC.
- Reconcile.RunKeepsInv: passes of one store do not overlap; of two that do, the one that records last sets the watermark, which may move it back.
- Reconcile.SyncWorker.ReconcileOne: payload mapping and embedding vectors are left out; a body is one text.
- Paging.FetchWooChanged: needs a page size of at least 1, without which the source's loop does not end; HTTP errors are the failing pass of Reconcile.
- Registry.SnapshotHasOrigin: an invalidation that arrives while a load is awaited is not modelled.
- Registry.Load: the embedding and rerank chains and the price map, which go through the same switch, are left out.
- Tokens.B64UrlRoundTrip: the decoder rejects characters outside the alphabet, where Python's skips them; tokens are ASCII.
- Tokens.MintedTokenDecodes: JSON text is an invertible codec and HMAC any function.
- AdminLogin.Account.Login: password hashing and rehashing, the per-address limit and the session row are left out (sessions are in Sessions).
- Sessions.SessionStore.Login: whether the account is locked is a given verdict; the same ladder is modelled in AdminLogin.
- Sessions.EachJtiRefreshesOnce: each handler call is one atomic step; token decoding and expiry come before it.
- Billing.BillingConserved: each call is one atomic step, so a crash between the paid update and the grant is not covered; the provider's amount check is the `verified` verdict, and tenant rows are only created by sign-up.
- Billing.RenewalsSplit: the run reads the clock once.
- Billing.ProrationWithinPrice: whole cents and seconds, and a positive period length, as floats are not modelled.
- Evaluation.Evaluate: the KPI table is left out.
- Order ingestion, dead letters, bulk import, the remaining admin and tenant routers, analytics, email, the web applications and the store plugins are not part of this model.
