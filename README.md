# golem-js requestor core, modelled in Dafny

This project models the requestor side of the Golem Network JavaScript SDK (golem-js).
A requestor publishes a demand on the market and receives provider offers as proposals.
It filters and de-duplicates them, negotiates them into drafts, and signs agreements.
It then runs work on provider activities, pays the invoices and debit notes providers send, and finally disconnects.
Some of the SDK's logic lives in small rules: configuration defaulting, price and payment filters, the reputation filter and selector, and state guards.

Each core source file has its own module:

- `Market`: the proposal funnel of `market.module.ts`. It has the stage chain, routing of initial versus counter proposals into a batch, buffering of drafts, GVMI image URL rewriting and the demand's property list.
- `ProposalFilters`, `ScannedOffers`, `Agreements`, `Storage`: the curried filter predicates, the price getters of a scanned offer, agreement state, and selection of the storage provider.
- `PaymentConfigs`, `AgreementConfigs`, `PaymentServices`: configuration defaulting (JavaScript `||` and `??` are written out: `||` also replaces 0 and ""), and the payment service's process table and wait loop.
- `Jobs`, `Reputation`, `Deployments`: the experimental job manager, the reputation system, and the deployment builder and guards.
- `RentalPools`, `Networks`, `Activities`, `Batches`, `YagnaApis`, `GolemNetworks`: the resource rental pool, the VPN network service with 32-bit IPv4 arithmetic, the activity result readers, the exe-script batch, the Yagna API client rules and the top-level `GolemNetwork` object.
- `Runners`: the legacy yajsapi engine's offer buffer and invoice matching.
- `Stats`: the statistics aggregators.
- `Wrappers`, `Strings`, `Seqs`: shared helpers.

State that the source changes in place is a `class` with `modifies` clauses, and loops are `while`/`for` loops with invariants.
Pure expressions are functions with lemmas.
Some components are not part of this model: `ProposalsBatch`, `DraftOfferProposalPool`, `ResourceRentalPool`, `Network`, `Script` and the stats aggregators.
They are modelled only as the state that their call sites and tests observe.
Calls to the Yagna REST API, timers and randomness are parameters of the operations that use them.
For example, `deadlinePassed` flags, API outcomes, and a `pick` index constrained to the range the source draws from.

## Model

| member | source | states |
|---|---|---|
| Agreements.ParseState | src/market/agreement/agreement.ts:23 | a name reads as a state only if it is that state's name in the `AgreementState` union |
| Agreements.StateNameRoundTrip | src/market/agreement/agreement.ts:23 | each of the seven states' names reads back as that state |
| Agreements.StateNamesDistinct | src/market/agreement/agreement.ts:23 | two states with the same name are the same state |
| Agreements.GetState | src/market/agreement/agreement.ts:108-110 | the state reported is the one in the agreement's model, and its API name reads back as that state |
| Agreements.IsFinalState | src/market/agreement/agreement.ts:125-128 | an agreement is final iff its state is Cancelled, Rejected, Approved, Expired or Terminated, i.e. neither Pending nor Proposal |
| Agreements.GetProviderInfo | src/market/agreement/agreement.ts:112-118 | the id is the offer's provider id; the name is the `golem.node.id.name` property, undefined when missing; the wallet address is present iff the offer has the address property of the demand's payment platform, and is its value |
| AgreementConfigs.MakeAgreementConfig | src/agreement/config.ts:6-30 | the options are kept; both timeouts fall back with falsy-or to 30000 and 60 (so neither is ever 0); logger and event target are the given ones, undefined without options |
| AgreementConfigs.MakeAgreementServiceConfig | src/agreement/config.ts:6-49 | the base part is the agreement config of the same options; selector, max events, max pool size and fetching interval fall back with `??` to the defaults (random selector with priority for existing ones, 100, 5, 5) |
| AgreementConfigs.ZeroServiceOptions | src/agreement/config.ts:24-48 | a zero request timeout is replaced by the default while zero max events, pool size and interval are kept |
| PaymentConfigs.OrNumber | src/payment/config.ts:45 | `x or d` (falsy fallback) on a number: the option when it is given and non-zero, otherwise the default |
| Strings.OrString | src/payment/config.ts:47-48 | `x or d` (falsy fallback) on a string: the option when it is given and non-empty, otherwise the default |
| PaymentConfigs.Nullish | src/payment/config.ts:68-74 | `x ?? d`: the option whenever it is given, the default only when it is absent |
| PaymentConfigs.OrAgreesWithNullishExceptZero | src/payment/config.ts:45-74 | the falsy-or and `??` fallbacks give different values exactly when the option is an explicit 0 and the default is not 0 |
| PaymentConfigs.MakeBaseConfig | src/payment/config.ts:43-52 | payment timeout falls back on absent or 0 to 60000; driver on absent or empty to "erc20"; network to the environment's network and then to "goerli"; the default logger is the "payment" logger; event target kept |
| PaymentConfigs.MakePaymentConfig | src/payment/config.ts:66-75 | the base part is the base config of the same options; each fetching interval, event limit and the unsubscribe timeout is the given value, and 5000, 5000, 500, 500 and 10000 when the options or that field are missing; a given filter is kept as it is, and a missing one accepts every document |
| PaymentConfigs.ZeroOptions | src/payment/config.ts:66-75 | with every option set to 0 the payment timeout is the default while the intervals, event limits and unsubscribe timeout stay 0 |
| PaymentConfigs.MakeAllocationConfig | src/payment/config.ts:86-106 | fails "Account option is required" iff there are no options or no account; fails "Account address and payment platform are required" iff either is empty; otherwise keeps the account, and budget, driver, network and expiry fall back with falsy-or to 1.0, "erc20", "goerli" and 3600 |
| PaymentConfigs.AllocationNetworkIgnoresEnvironment | src/payment/config.ts:100-103 | without a network option the allocation's own network is "goerli" while the base settings take the environment's network |
| ProposalFilters.AcceptAll | dist/golem-js.mjs:25 | the default proposal filter accepts every proposal |
| ProposalFilters.AllowProvidersById | dist/golem-js.mjs:33 | a proposal passes exactly when its provider's id is in the list |
| ProposalFilters.DisallowProvidersById | dist/golem-js.mjs:27 | a proposal passes exactly when its provider's id is not in the list |
| ProposalFilters.AllowProvidersByName | dist/golem-js.mjs:35 | a proposal passes exactly when its provider's name is in the list |
| ProposalFilters.DisallowProvidersByName | dist/golem-js.mjs:29 | a proposal passes exactly when its provider's name is not in the list |
| ProposalFilters.DisallowIsNegationOfAllow | dist/golem-js.mjs:27-35 | the disallow filter over a list accepts exactly the proposals the allow filter over the same list refuses, by id and by name |
| ProposalFilters.AllowAndDisallowPartition | dist/golem-js.mjs:27-33 | filtering the same proposals by the allow-by-id and disallow-by-id filters splits them: each proposal lands on exactly one side and the sizes add up |
| ProposalFilters.LimitPriceFilter | dist/golem-js.mjs:45-49 | accepts iff the CPU price, the environment price and the start price are each at most their limit; a proposal without a start price is refused |
| ProposalFilters.LimitPriceFilterMonotone | dist/golem-js.mjs:45-49 | raising any limit never refuses a proposal that was accepted before |
| ProposalFilters.AcceptAllDebitNotesFilter | dist/golem-js.mjs:92 | accepts every debit note |
| ProposalFilters.AcceptAllInvoicesFilter | dist/golem-js.mjs:94 | accepts every invoice |
| ProposalFilters.AcceptMaxAmountDebitNoteFilter | dist/golem-js.mjs:96 | accepts a debit note iff its total amount due is at most the cap |
| ProposalFilters.AcceptMaxAmountInvoiceFilter | dist/golem-js.mjs:98 | accepts an invoice iff its amount is at most the cap |
| ProposalFilters.AcceptedInvoicesBounded | dist/golem-js.mjs:98 | the invoices the max-amount filter accepts add up to at most their number times the cap |
| ScannedOffers.FindIndex | src/market/scan/scanned-offer.ts:34-35 | `findIndex`: -1 iff the value is absent, otherwise an index holding it with no earlier occurrence |
| ScannedOffers.Pricing | src/market/scan/scanned-offer.ts:18-46 | fails iff the usage vector is absent, or present with the coefficients absent; otherwise the start price is absent iff there are no coefficients and is the last coefficient otherwise |
| ScannedOffers.PricingReadsUsagePositions | src/market/scan/scanned-offer.ts:34-38 | the duration (CPU) price is the coefficient at the first position of its usage counter, or 0 when there is no coefficient there |
| ScannedOffers.PricingWithoutCounter | src/market/scan/scanned-offer.ts:37-38 | a counter missing from the usage vector is priced 0 |
| ScannedOffers.LinearOfferPricingRoundTrip | src/market/scan/scanned-offer.ts:18-46 | the pricing read from an offer published with prices for [duration, cpu] and a start price gives back those three prices |
| ScannedOffers.SwappedUsageVector | src/market/scan/scanned-offer.ts:34-38 | with the counters listed as [cpu, duration] each price still follows its counter's position |
| ScannedOffers.Provider | src/market/scan/scanned-offer.ts:48-53 | the provider id is the offer's; the name is the node name when it is given and non-empty, "<unknown>" otherwise, so never empty |
| ScannedOffers.MemoryGib | src/market/scan/scanned-offer.ts:80-82 | the memory is the value published under golem.inf.mem.gib |
| ScannedOffers.Memory | src/market/scan/scanned-offer.ts:75-78 | the deprecated getter gives the same value as `memoryGib` |
| ScannedOffers.StorageGib | src/market/scan/scanned-offer.ts:89-91 | the storage is the value published under golem.inf.storage.gib |
| ScannedOffers.Storage | src/market/scan/scanned-offer.ts:84-87 | the deprecated getter gives the same value as `storageGib` |
| ScannedOffers.SizeGettersReadTheirKeys | src/market/scan/scanned-offer.ts:75-91 | `memory`/`memoryGib` read back the value published as golem.inf.mem.gib and `storage`/`storageGib` the one under golem.inf.storage.gib; changing the memory key leaves storage, pricing and provider unchanged |
| Storage.StorageLogger | dist/golem-js.mjs:110-114 | the storage provider's logger is the `storage` child of the given logger, and absent when no logger is given |
| Storage.CreateDefaultStorageProvider | dist/golem-js.mjs:108-118 | GFTP iff running under Node; the WebSocket browser provider iff not Node but a browser; the null provider otherwise; the first two get the storage logger |
| Market.BuildDemand | src/market/market.module.ts:196-231 | the package's decorations come first and are kept; the payment-address property and its `= *` constraint are both keyed by the payer's payment platform; the protocol-version constraint is `> 1`; the expiration is now plus the expiry in milliseconds; the pricing model is constrained to linear |
| Market.ApplyLocalGvmiServeSupport | src/market/market.module.ts:238-258 | a "file://" image URL loses the prefix, and URL and hash come from the file server's existing publication of the path or else from publishing it now (and only then is it published); every other option, the tag included, is kept; any other URL leaves the options unchanged |
| Market.SubscribeForProposals | src/market/market.module.ts:287-294 | every proposal passed on is bound to the subscribed demand, and there are never more of them than events |
| Market.SubscribeKeepsExactlyNewProposals | src/market/market.module.ts:288-293 | a proposal reaches subscribers iff a new-proposal event carried it; a rejection event never gets through |
| Market.AdmitProposals | src/market/market.module.ts:338-339 | a proposal passes admission iff it is valid and, when a filter is given, the filter accepts it |
| Market.BatchInsertEntry | src/market/market.module.ts:406-408 | after adding a proposal to the batch, its provider's entry is that proposal and every other provider's entry is unchanged |
| Market.BatchInsertKeepsKeysDistinct | src/market/market.module.ts:402-408 | adding a proposal keeps at most one entry per provider key |
| Market.BatchKeepsLatestSighting | src/market/market.module.ts:406-408 | after a window, a provider's entry is its last proposal added in that window, or its earlier entry if it sent none |
| Market.BatchInsertAllKeepsKeysDistinct | src/market/market.module.ts:406-408 | adding any sequence of proposals keeps one entry per provider key |
| Market.OneEntryPerProvider | src/market/market.module.ts:392-398 | in a batch with distinct keys, a provider that has an entry has exactly one |
| Market.DedupKeepsOnlyLatest | src/market/market.module.ts:392-435 | however many initial proposals of a provider arrive in a window, the batch holds exactly one proposal of that provider, the last one added |
| Market.ProposalsBatch.constructor | src/market/market.module.ts:402-405 | a new batch is empty |
| Market.ProposalsBatch.AddProposal | src/market/market.module.ts:408 | the batch becomes the old one with the proposal replacing its provider's entry or appended, keeping one entry per provider |
| Market.ProposalsBatch.GetProposals | src/market/market.module.ts:421 | hands out the whole window and leaves the batch empty |
| Market.InitialProposalReducer.constructor | src/market/market.module.ts:400-405 | not cancelled, nothing emitted, no error, empty batch |
| Market.InitialProposalReducer.OnProposal | src/market/market.module.ts:406-413 | an initial proposal goes only into the batch; any other goes straight to the destination, unless the destination has already received an error |
| Market.InitialProposalReducer.Feed | src/market/market.module.ts:406-413 | after a run of proposals the batch holds the initial ones added in order, and the destination received the non-initial ones in their relative order |
| Market.InitialProposalReducer.BatchCycle | src/market/market.module.ts:414-429 | when cancelled nothing happens and the loop stops; otherwise a released batch is emitted element by element and emptied, a failed release reports its error to the destination, and the loop re-arms |
| Market.InitialProposalReducer.Unsubscribe | src/market/market.module.ts:430-433 | teardown sets the cancelled flag and emits nothing |
| Market.AfterDeduplication | src/market/market.module.ts:346-354 | negotiation is started exactly for the emitted proposals that are initial, every emitted proposal is stored, and exactly the drafts go on |
| Market.BufferSizeOption | src/market/market.module.ts:356 | bufferSize or 10 (falsy fallback): the given size unless absent or 0, then 10; never below 1 |
| Market.BufferTimeoutOption | src/market/market.module.ts:356 | `bufferTimeout ?? 1000`: the given timeout whenever it is given, even 0 |
| Market.BufferTimeKeepsOrder | src/market/market.module.ts:356 | the buffers `bufferTime` emits, concatenated, are exactly its input proposals in order |
| Market.BufferTimeBounded | src/market/market.module.ts:356 | no buffer holds more than the buffer size |
| Market.DropEmpty | src/market/market.module.ts:358 | the remaining buffers are non-empty, come from the input, and together hold the same proposals in order |
| Market.CollectDraftBuffers | src/market/market.module.ts:354-358 | the output buffers are non-empty, hold at most bufferSize or 10 (falsy fallback) proposals each, hold only drafts, and together are the drafts of the input in order |
| Jobs.RunWork | dist/golem-js-experimental.js:99-119 | a signal aborted at the start cancels the run before renting; the rental is finalized iff it was obtained; the run succeeds iff rental, exe unit, work and finalization all succeed with no abort in between, and then yields the work's result; a failing finalization replaces the run's outcome |
| Jobs.CancelGuardAsWritten | dist/golem-js-experimental.js:124-127 | the guard as written tests the `isRunning` method reference, which is always truthy, so it never rejects |
| Jobs.CancelGuard | dist/golem-js-experimental.js:120-127 | the guard the documentation describes rejects exactly when the job is not in progress |
| Jobs.CancelGuardDiscrepancy | dist/golem-js-experimental.js:124-127 | a new job is accepted by the written guard but rejected by the intended one; the two guards differ exactly on the states that are not in progress |
| Jobs.Job.constructor | dist/golem-js-experimental.js:48-56 | a job starts in state New with no results, no error and an un-aborted signal |
| Jobs.Job.IsRunning | dist/golem-js-experimental.js:57-60 | a job is running iff it is Pending or Retry |
| Jobs.Job.StartWork | dist/golem-js-experimental.js:70-78 | a running job is refused with "already running" and left as it was; otherwise the job becomes Pending with a fresh, un-aborted signal |
| Jobs.Job.Settle | dist/golem-js-experimental.js:83-94 | a successful run stores the results and moves to Done; a failed one stores the error and moves to Rejected |
| Jobs.Job.CancelAsWritten | dist/golem-js-experimental.js:124-132 | `cancel` as written always aborts the signal, whatever the state, and changes nothing else |
| Jobs.Job.Cancel | dist/golem-js-experimental.js:120-132 | the corrected `cancel` refuses a job that is not running with "not running" and otherwise aborts its signal; the state, results and error are untouched |
| Jobs.Job.Abort | dist/golem-js-experimental.js:128 | aborting the signal changes nothing but the signal |
| Jobs.Job.WaitForResult | dist/golem-js-experimental.js:137-157 | returns the results iff Done, throws the stored error when Rejected, throws "not running" for a job that is neither finished nor in progress, and waits iff in progress |
| Jobs.RunToCompletion | dist/golem-js-experimental.js:70-157 | starting an idle job and settling its run makes `waitForResult` return the work's result when the run succeeded and throw the run's error otherwise |
| Jobs.JobManager.constructor | dist/golem-js-experimental.js:170-174 | a manager starts with an empty job table, holding the network and the storage provider it was built with |
| Jobs.NewJobManager | dist/golem-js-experimental.js:170-186 | with the corrected storage-provider choice (ManagerStorageProvider), `new JobManager` fails with the network constructor's configuration error iff building GolemNetwork from the configured key, base path and chosen storage provider fails; otherwise a fresh manager, not initialized and with no jobs, over that network and provider |
| Jobs.ManagerWithoutKeyFails | dist/golem-js-experimental.js:177-185 | with no API key in the options or the environment the manager cannot be built |
| Jobs.JobManager.IsInitialized | dist/golem-js-experimental.js:187-189 | `isInitialized` is the network's connection flag |
| Jobs.JobManager.Init | dist/golem-js-experimental.js:190-192 | `init` succeeds iff the Yagna API, the payment API and the storage provider all start, and then the manager is initialized; a failure is rethrown with the connection state unchanged; the jobs are untouched |
| Jobs.JobManager.CreateJob | dist/golem-js-experimental.js:199-205 | refused with "GolemNetwork not initialized" when not connected; otherwise a fresh New job under the new id is added to the table |
| Jobs.JobManager.GetJobById | dist/golem-js-experimental.js:206-209 | refused iff not connected; otherwise the job stored under the id, if any |
| Jobs.JobManager.Close | dist/golem-js-experimental.js:213-217 | exactly the running jobs are cancelled (their signal aborted, nothing else of theirs changed) and the others are untouched; the disconnect succeeds iff storage, payment and Yagna close, leaving the manager not initialized, and a failure is rethrown with the connection state unchanged |
| Jobs.ManagerStorageProviderAsWritten | dist/golem-js-experimental.js:175-231 | as written, choosing the provider fails with a TypeError exactly in a browser that is not Node, because `this.glm` is not yet assigned; elsewhere it is the default choice |
| Jobs.ManagerStorageProvider | dist/golem-js-experimental.js:223-231 | the corrected choice is the runtime's default provider, with no logger: GFTP under Node, WebSocket in a browser, the null provider otherwise |
| Jobs.BrowserManagerFailsAsWritten | dist/golem-js-experimental.js:175-231 | in a browser the written constructor throws where the corrected one picks the WebSocket provider, and the two agree wherever the written one succeeds |
| Reputation.CalculateScore | dist/golem-js-experimental.js:579-591 | the loop over the weight keys returns the normalized score: the sum of weight times value over the sum of weights, with a missing weight or value counting as 0 |
| Reputation.WeightedSumLowerBound | dist/golem-js-experimental.js:582-588 | with non-negative weights and every value at least `lo`, the weighted sum is at least `lo` times the total weight |
| Reputation.WeightedSumUpperBound | dist/golem-js-experimental.js:582-588 | with non-negative weights and every value at most `hi`, the weighted sum is at most `hi` times the total weight |
| Reputation.ScoreWithinValueBounds | dist/golem-js-experimental.js:579-591 | with non-negative weights and a positive total the score is a weighted mean: it lies between the smallest and largest value read |
| Reputation.FindPreset | dist/golem-js-experimental.js:275-312 | exactly the "compute" and "service" presets exist |
| Reputation.InsertByScorePermutes | dist/golem-js-experimental.js:607-619 | inserting a candidate into the ranking adds exactly that candidate |
| Reputation.InsertByScoreSorted | dist/golem-js-experimental.js:607-619 | inserting into a ranking in descending score order keeps it in that order |
| Reputation.SortCandidatesByScore | dist/golem-js-experimental.js:607-619 | the sorted copy holds as many candidates as the input |
| Reputation.SortCandidatesByScoreCorrect | dist/golem-js-experimental.js:607-619 | the sorted copy is a permutation of the candidates in descending order of their cached score, an uncached one scoring 0 |
| Reputation.PickRange | dist/golem-js-experimental.js:569-570 | the random index is drawn below `min(poolSize, n)`, and below 1 when that is 0 or 1; the range never exceeds a non-empty candidate list |
| Reputation.ReputationSystem.constructor | dist/golem-js-experimental.js:339-379 | no data and empty tables, the default proposal and agreement weights (uptime 0.5, successRate 0.5), min 0.8 with acceptUnlisted undefined, top pool size 2 |
| Reputation.ReputationSystem.UsePreset | dist/golem-js-experimental.js:388-410 | an unknown preset fails "preset not found" and changes nothing; a known one replaces the weights it gives, its min and top pool size fall back to the current defaults, and acceptUnlisted comes from the preset even when undefined |
| Reputation.ReputationSystem.SetData | dist/golem-js-experimental.js:416-431 | the data is replaced and the three tables are rebuilt from it, the last entry per key winning (operators keyed by wallet address), an absent list giving an empty table |
| Reputation.ReputationSystem.SetProposalWeights | dist/golem-js-experimental.js:468-470 | replaces the proposal weights and nothing else |
| Reputation.ReputationSystem.SetAgreementWeights | dist/golem-js-experimental.js:480-482 | replaces the agreement weights and nothing else |
| Reputation.ReputationSystem.GetProviderScores | dist/golem-js-experimental.js:493-496 | present iff some tested provider has the id, and then the scores of such an entry |
| Reputation.ReputationSystem.OfferProposalFilter | dist/golem-js-experimental.js:501-542 | a rejected operator or rejected provider is refused; otherwise a listed provider passes iff its score reaches `opts.min ?? default min ?? 0.8` (with a zero total weight, iff the weighted sum is positive), and an unlisted one iff `opts.acceptUnlisted ?? default ?? (no tested providers)` |
| Reputation.ReputationSystem.CalculateProviderPool | dist/golem-js-experimental.js:599-606 | exactly the tested providers whose score reaches the min, never more than there are |
| Reputation.CancellingWeightsMeetMin | dist/golem-js-experimental.js:579-591 | with weights 1 and -1 the total weight is 0, and a provider reaches every min iff its first score exceeds its second (+Infinity), never when they are equal (NaN) |
| Reputation.ReputationSystem.OfferProposalSelector | dist/golem-js-experimental.js:554-573 | nothing is chosen iff there are no proposals; the ranking is a permutation in descending agreement score; the choice is one of the proposals, within the first `min(poolSize, n)` ranks and scoring at least as high as every rank after those |
| Reputation.NewReputationSystem | dist/golem-js-experimental.js:334-383 | without a (non-empty) preset the defaults hold; with one, construction fails iff the preset is unknown, and a known preset's weights, min and top pool size are in force |
| Reputation.FilterAgreesWithProviderPool | dist/golem-js-experimental.js:501-606 | a listed, non-rejected provider passes the filter iff its entry is in the provider pool for the same options |
| Reputation.FilterMonotoneInMin | dist/golem-js-experimental.js:524-535 | raising the minimum never admits a proposal the lower one refused |
| Deployments.FirstUnknownNetwork | dist/golem-js-experimental.js:625-632 | passes iff every pool naming a network names a declared one; otherwise reports the first pool that does not, with its network |
| Deployments.ValidateNetworks | dist/golem-js-experimental.js:622-633 | the components are valid iff every pool's network, when it has a non-empty one, is among the declared network names; an invalid set reports an offending pool |
| Deployments.MaxAgreements | dist/golem-js-experimental.js:692 | a replica count is used as is; a range gives its max, else its min, else 1; missing replicas give 1 |
| Deployments.TotalBudget | dist/golem-js-experimental.js:689-698 | the budget is computed iff every pool has deployment options, and is then the sum of each pool's estimate for its max agreements and rent hours; otherwise the pool reported is the first one without options |
| Deployments.SumOfEstimatesSnoc | dist/golem-js-experimental.js:689-698 | adding a pool adds its own estimate to the budget of the others |
| Deployments.LongestExpirationSec | dist/golem-js-experimental.js:686-688 | without pools there is none; otherwise it is the longest rent of any pool, in seconds |
| Deployments.Deployment.constructor | dist/golem-js-experimental.js:652-659 | a new deployment holds its components, is INITIAL, not aborted, with no networks or pools |
| Deployments.Deployment.Provision | dist/golem-js-experimental.js:682-736 | succeeds iff every network creation, the budget, the allocation and the pools' readiness succeed; the networks table gains each created network under its name; the allocation is requested once, with the total budget and the longest expiration, only after every network was created and the budget computed; each pool is then stored under its name with that allocation and its named network; on success every declared network and pool has an entry; when the k-th network creation fails first, start fails with its error and the table holds exactly the networks created before it; when the allocation fails, start fails with its error and the pools are unchanged |
| Deployments.WithNetworksKeys | dist/golem-js-experimental.js:682-685 | when every network creation succeeds, the networks table holds the earlier names and exactly the declared network names |
| Deployments.WithPoolsKeys | dist/golem-js-experimental.js:703-734 | the pools table holds the earlier names and exactly the declared pool names, each pool with the allocation |
| Deployments.Deployment.StartAsWritten | dist/golem-js-experimental.js:674-738 | an aborted deployment fails "start after abort", a non-INITIAL one "expected INITIAL", with nothing created; otherwise it provisions, and the state never changes |
| Deployments.Deployment.Start | dist/golem-js-experimental.js:639-647 | the corrected `start`: same guards and provisioning, and an INITIAL deployment ends READY iff provisioning succeeded and ERROR iff it failed |
| Deployments.Deployment.Stop | dist/golem-js-experimental.js:739-759 | a no-op while STOPPING or STOPPED; otherwise it aborts and ends STOPPED with every pool drained and every network removed, or ERROR when the teardown throws the error it rethrows |
| Deployments.Deployment.GetResourceRentalPool | dist/golem-js-experimental.js:760-766 | the pool stored under the name, or "ResourceRentalPool … not found" iff there is none |
| Deployments.Deployment.GetNetwork | dist/golem-js-experimental.js:767-773 | the network stored under the name, or "Network … not found" iff there is none |
| Deployments.NewDeployment | dist/golem-js-experimental.js:652-670 | construction fails with the validation error iff the networks are invalid; otherwise a fresh INITIAL deployment of the components |
| Deployments.SecondStartAsWritten | dist/golem-js-experimental.js:674-738 | as written, a deployment whose start succeeded is still INITIAL, so a second start provisions everything again, requesting a second allocation with the same budget, and succeeds |
| Deployments.SecondStartRefused | dist/golem-js-experimental.js:679-681 | with the transitions in place, a second start is refused with the state READY (or ERROR after a failed first start), and only one allocation is requested |
| Deployments.DeploymentBuilder.constructor | dist/golem-js-experimental.js:789-795 | a new builder has no pools and no networks |
| Deployments.DeploymentBuilder.CreateResourceRentalPool | dist/golem-js-experimental.js:796-802 | a taken pool name is refused "already exists" and nothing changes; otherwise the pool is appended, keeping pool names unique |
| Deployments.DeploymentBuilder.CreateNetwork | dist/golem-js-experimental.js:803-809 | a taken network name is refused "already exists" and nothing changes; otherwise the network is appended, keeping network names unique |
| Deployments.DeploymentBuilder.GetDeployment | dist/golem-js-experimental.js:810-823 | invalid components are refused with the validation error and kept; otherwise an INITIAL deployment of exactly the collected components is returned and the builder is reset |
| RentalPools.SigningFailuresDistinct | tests/e2e/resourceRentalPool.spec.ts:180-190 | an aborted signing and a signing that runs out of time fail with different messages, the two the tests expect |
| RentalPools.ResourceRentalPool.constructor | tests/e2e/resourceRentalPool.spec.ts:54 | a new pool is empty and keeps its replica bounds |
| RentalPools.ResourceRentalPool.GetAvailableSize | tests/e2e/resourceRentalPool.spec.ts:60 | the available size counts the rentals ready to hand out |
| RentalPools.ResourceRentalPool.GetBorrowedSize | tests/e2e/resourceRentalPool.spec.ts:61 | the borrowed size counts the rentals handed out |
| RentalPools.ResourceRentalPool.GetSize | tests/e2e/resourceRentalPool.spec.ts:59-61 | the size is the number of rentals, available or borrowed, and never exceeds the maximum |
| RentalPools.ResourceRentalPool.Rent | tests/e2e/resourceRentalPool.spec.ts:162-177 | a signed agreement gives a rental distinct from every rental in the pool and every destroyed one, only below the maximum |
| RentalPools.ResourceRentalPool.Acquire | tests/e2e/resourceRentalPool.spec.ts:58-61 | an available rental is lent first; otherwise a new one is signed below the maximum, a failed signing fails with its error, and a full pool waits |
| RentalPools.ResourceRentalPool.Lend | tests/e2e/resourceRentalPool.spec.ts:77-84 | lending moves one rental from available to borrowed and keeps the size |
| RentalPools.ResourceRentalPool.RentBorrowed | tests/e2e/resourceRentalPool.spec.ts:58-61 | a newly signed rental is borrowed at once and the size grows by one |
| RentalPools.ResourceRentalPool.Release | tests/e2e/resourceRentalPool.spec.ts:88-93 | releasing a borrowed rental makes it available and keeps the size; a rental not borrowed is refused |
| RentalPools.ResourceRentalPool.Destroy | tests/e2e/resourceRentalPool.spec.ts:64 | destroying a borrowed rental removes it and records its destruction once; a rental not borrowed is refused |
| RentalPools.ResourceRentalPool.DrainAndClear | tests/e2e/resourceRentalPool.spec.ts:121-138 | draining destroys every rental of the pool exactly once and leaves it empty |
| RentalPools.DestroyAll | tests/e2e/resourceRentalPool.spec.ts:121-138 | the drain loop appends each rental of the set once, none twice, to the destroyed list |
| RentalPools.CountSignedPrefix | tests/e2e/resourceRentalPool.spec.ts:73 | a prefix of the signing outcomes holds no more successes than the whole |
| RentalPools.ResourceRentalPool.Ready | tests/e2e/resourceRentalPool.spec.ts:73-76 | ready signs rentals until the minimum is reached, leaving the size at the minimum or at what the successful signings allow, and passes exactly when the minimum is held |
| RentalPools.FirstAcquire | tests/e2e/resourceRentalPool.spec.ts:53-61 | the first acquire on a one-replica pool gives size 1, available 0, borrowed 1 |
| RentalPools.ReadyThenBorrowAndReturn | tests/e2e/resourceRentalPool.spec.ts:68-95 | after ready with two replicas the pool holds 2/2/0, each acquire moves one rental to borrowed and each release moves it back, the size staying 2 |
| RentalPools.ReleaseThenReuse | tests/e2e/resourceRentalPool.spec.ts:97-114 | a released rental is the one the next acquire hands out |
| RentalPools.ReleaseThenDrain | tests/e2e/resourceRentalPool.spec.ts:116-139 | draining after two releases destroys exactly the two rentals, once each |
| RentalPools.DestroyThenDrain | tests/e2e/resourceRentalPool.spec.ts:64-65 | destroying a borrowed rental and then draining both succeed, and a second drain destroys nothing more |
| RentalPools.AcquireMany | tests/e2e/resourceRentalPool.spec.ts:162-177 | however many acquirers run, the size never exceeds the maximum and reaches it when enough acquire |
| Networks.OctetsOf | src/network/network.module.ts:54 | an address splits into four octets below 256 that rebuild it |
| Networks.ParseOctet | src/network/network.module.ts:45-48 | a parsed octet is below 256 |
| Networks.ParseIpv4 | src/network/network.module.ts:48 | a parsed address had exactly four dot-separated parts |
| Networks.OctetRoundTrip | src/network/network.module.ts:48 | the decimal text of any octet parses back to it |
| Networks.SplitJoinDots | src/network/network.module.ts:54 | pieces free of dots, joined by dots, split back into the same pieces |
| Networks.FormatSplits | src/network/network.module.ts:54 | the text of an address splits at its dots into the decimal texts of its octets |
| Networks.ParseFormatRoundTrip | src/network/network.module.ts:48-54 | parsing the dotted text of any address gives the address back |
| Networks.FormatIsInjective | src/network/network.module.ts:54 | two addresses with the same text are the same address |
| Networks.MaskToPrefix | src/network/network.module.ts:47 | a mask yields the prefix whose mask it is, and none when no prefix has that mask |
| Networks.FirstAddressOfRange | src/network/network.module.ts:48-49 | the first address of a range is aligned to the block size, the given address lies in its block, and the block fits in the address space |
| Networks.FirstAddressOfMember | src/network/network.module.ts:48-49 | every address of a range names the same first address |
| Networks.Prefix24Mask | src/network/network.module.ts:50 | the mask of prefix 24 reads 255.255.255.0 |
| Networks.DefaultAddressValue | src/network/network.module.ts:45 | the default address text parses to 192.168.0.0 |
| Networks.ParseDefaultPrefix | src/network/network.module.ts:46 | the default prefix text parses to 24 |
| Networks.RequestedPrefix | src/network/network.module.ts:46-47 | a non-empty mask option decides the prefix, present exactly when the mask is an address and contiguous, and then between 0 and 32; otherwise the prefix text is parsed, missing exactly when parseInt yields NaN |
| Networks.AddressText | src/network/network.module.ts:45 | the address text is never empty, and without a slash in the ip option it is that option when non-empty, otherwise the default |
| Networks.PrefixText | src/network/network.module.ts:46 | without a slash in the ip option the prefix text is the default 24 |
| Networks.NetworkAddressing | src/network/network.module.ts:45-51 | a network's address is the aligned first address of the range holding the requested address, its prefix the requested one, and it has a gateway exactly when the option is non-empty; creation is refused exactly when the address, a given gateway or the prefix (missing, negative or above 32) is invalid |
| Networks.RangeAddressing | src/network/network.module.ts:48-49 | the first address of a range is aligned to the block size, lies inside the address space and holds the requested address |
| Networks.DefaultNetworkAddressing | src/network/network.module.ts:45-51 | without options the network is 192.168.0.0/24 with no gateway |
| Networks.PrefixWithoutSlash | src/network/network.module.ts:46 | an ip option without a slash and no mask give prefix 24 |
| Networks.LenientPrefixText | src/network/network.module.ts:46 | white space or a '+' before "24" after the slash still gives prefix 24 |
| Networks.NegativePrefixText | src/network/network.module.ts:46-48 | a negative prefix after the slash names no network, while "-0" reads as prefix 0 |
| Networks.MaskOverridesPrefix | src/network/network.module.ts:47 | a valid mask option decides the prefix whatever the ip option says |
| Networks.SameRangeSameNetwork | src/network/network.module.ts:48-49 | two requests whose addresses lie in the same range create the same network address |
| Networks.FirstFree | src/network/network.module.ts:115 | the first free address is unused, every address before it is used, and none is found only when all are used |
| Networks.PlanNode | src/network/network.module.ts:88-116 | a node id already present is refused; a requested address must parse, lie in the network and be unused; without one the lowest free host address is chosen, or none is available |
| Networks.Network.constructor | src/network/network.module.ts:52-57 | a new network has the given id, address, prefix and gateway and no nodes |
| Networks.Network.AddNode | src/network/network.module.ts:118 | adding a node records its address under its id and keeps the table valid |
| Networks.Network.RemoveNode | src/network/network.module.ts:143 | removing a node drops exactly its id |
| Networks.CreateNetworkNode | src/network/network.module.ts:88-132 | the node is added exactly when the checks pass and the API call succeeds; otherwise the table is unchanged and the error code is the check's or NodeAddingFailed |
| Networks.RemoveNetworkNode | src/network/network.module.ts:133-159 | a node not in the network is refused, a failed API call leaves the table as it was, and a successful one drops the node |
| Networks.RemoveNetwork | src/network/network.module.ts:75-87 | removal passes exactly when the API call does and fails with NetworkRemovalFailed otherwise |
| Networks.AddThenRemove | src/network/network.module.ts:88-159 | adding a node and removing it again leaves the node table as it was |
| Networks.CreateNetwork | src/network/network.module.ts:43-74 | the request sent holds the computed address, mask and gateway texts; address or API failures become NetworkCreationFailed, node errors pass through, and a created network holds exactly the requestor's node |
| Networks.NetworkService.constructor | tests/unit/network_service.test.ts:12 | a new service has no network |
| Networks.NetworkService.Run | tests/unit/network_service.test.ts:11-25 | a running service has the network 192.168.0.0 with mask 255.255.255.0 and the owner at 192.168.0.1 |
| Networks.NetworkService.AddNode | tests/unit/network_service.test.ts:29-48 | adding a node before run is refused; afterwards the node gets the planned address |
| Networks.NetworkService.End | tests/unit/network_service.test.ts:52-66 | ending drops the network |
| Networks.OwnerGetsFirstHost | src/network/network.module.ts:115 | in an empty 192.168.0.0/24 network the first node gets 192.168.0.1 |
| Networks.SecondNodeGetsNextHost | src/network/network.module.ts:115 | next to a node at 192.168.0.1 the next node gets 192.168.0.2 |
| Networks.FirstProviderAddress | tests/unit/network_service.test.ts:29-42 | the first provider added after run gets 192.168.0.2 |
| Networks.AddNodeBeforeRun | tests/unit/network_service.test.ts:44-48 | adding a node before run fails with the not-started message |
| Networks.EndTwice | tests/unit/network_service.test.ts:52-66 | ending a service twice leaves it without a network |
| PaymentServices.Token | src/payment/service.ts:231-232 | the token is glm exactly on the two mainnets and tglm everywhere else |
| PaymentServices.GetPaymentPlatform | src/payment/service.ts:230-235 | the platform is driver, network and token joined by dashes |
| PaymentServices.PaymentPlatformToken | src/payment/service.ts:230-235 | a mainnet platform ends in -glm and any other network's in -tglm |
| PaymentServices.UnpaidCount | src/payment/service.ts:158-162 | the unpaid count is at most the number of processes and is zero exactly when every process is finished |
| PaymentServices.UnpaidCountAfterAccept | src/payment/service.ts:144-159 | starting a process for a new agreement raises the unpaid count by one |
| PaymentServices.WaitRounds | src/payment/service.ts:75-88 | the wait stops at the first round that saw no unpaid agreement, or at the timeout, having seen unpaid agreements in every earlier round |
| PaymentServices.PaymentService.constructor | src/payment/service.ts:45-61 | a new service is not running and has no allocation, processes or errors |
| PaymentServices.PaymentService.Run | src/payment/service.ts:63-68 | run marks the service running and changes nothing else |
| PaymentServices.PaymentService.AcceptPayments | src/payment/service.ts:127-156 | a known agreement is left alone; without an allocation the call fails with MissingAllocation; otherwise one unfinished process is added for the agreement |
| PaymentServices.PaymentService.ProcessDocument | src/payment/service.ts:164-206 | an invoice or debit note for an agreement without a process fails with PaymentProcessNotInitialized; otherwise it is handed to that process |
| PaymentServices.PaymentService.SubscribePayments | src/payment/service.ts:208-228 | a document that cannot be processed emits one PaymentProcessNotInitialized error and changes no process; otherwise it reaches its process and nothing is emitted |
| PaymentServices.PaymentService.CreateAllocation | src/payment/service.ts:105-125 | a created allocation is kept and returned; a payment error passes through unchanged and any other failure becomes AllocationCreationFailed, keeping the previous allocation |
| PaymentServices.PaymentService.End | src/payment/service.ts:70-98 | end stops the service, waits only when it was running with processes, for the rounds the wait takes, and releases an existing allocation |
| PaymentServices.PaymentService.NumberOfUnpaidAgreements | src/payment/service.ts:158-162 | the number of unpaid agreements is the unpaid count of the processes |
| PaymentServices.WithDocument | src/payment/service.ts:183-205 | an invoice is appended to the process's invoices and a debit note to its debit notes, nothing else changing |
| Activities.StateNamed | src/activity/activity.ts:12-19 | a name that yields a state is that state's name |
| Activities.StateNameRoundTrip | src/activity/activity.ts:12-19 | every state's name leads back to the state |
| Activities.ParseEventToResult | src/activity/activity.ts:375-398 | an event that does not parse is an error naming the message; a parsed one keeps its index, timestamp, stdout and stderr, and takes the message of its finished part |
| Activities.ResultStateRule | src/activity/activity.ts:383-389 | a finished event is Ok exactly when its return code is 0; an unfinished one is an error exactly when it has stderr |
| Activities.BatchFinishedRule | src/activity/activity.ts:393 | a result ends the batch exactly when its index reaches the batch size and the event is finished |
| Activities.IsTimeoutError | src/activity/activity.ts:350-358 | an error with a response counts as a timeout when its status is 408, its code ETIMEDOUT, or its code ECONNABORTED with "timeout" in its message |
| Activities.TimeoutNeedsResponse | src/activity/activity.ts:350-358 | only an error with a response counts as a timeout, and ECONNABORTED without "timeout" in the message does not |
| Activities.HandleError | src/activity/activity.ts:322-348 | a timeout keeps the retry count, a terminated activity rethrows, otherwise the count grows by one until the limit, where it gives up naming the command index (0 when absent) and the error message; a returned count stays below the limit |
| Activities.SliceFrom | src/activity/activity.ts:226 | slicing from a non-negative position drops that many results, and any slice is a prefix or a suffix of the results |
| Activities.Absorb | src/activity/activity.ts:230-236 | new results are pushed in order, and the last one sets the last index and the finished flag |
| Activities.PollingBatch | src/activity/activity.ts:196-253 | the polling loop leaves the state the round-by-round run of the reader reaches |
| Activities.SuccessfulFetch | src/activity/activity.ts:215-236 | a successful fetch before the deadline resets the retries and pushes just the results after the last index |
| Activities.RepeatedResultsSkipped | src/activity/activity.ts:226 | results up to the last index already pushed are skipped |
| Activities.PollRetriesStayBelowLimit | src/activity/activity.ts:185-186 | however the rounds go, the retry count stays below five |
| Activities.PollFinishedMeansLastResultFinished | src/activity/activity.ts:197-236 | polling stops as finished only after pushing a result that ends the batch |
| Activities.FiveFailuresGiveUp | src/activity/activity.ts:237-247 | enough plain read failures in a row end the stream with an error and push nothing more |
| Activities.StreamError | src/activity/activity.ts:289-302 | a round ends the stream with an error exactly when the deadline passed, the activity stopped, or errors arrived |
| Activities.ArrivedGrows | src/activity/activity.ts:272 | the results that arrived so far only grow with the rounds |
| Activities.StreamingBatch | src/activity/activity.ts:257-320 | the loop pushes exactly what the turn-by-turn fold of the stream pushes and ends as the fold ends; the pushed results are the arrived ones in arrival order, at most one per turn, the batch ends exactly after a result that finishes it, and a failure needs an error or a stopped or late turn |
| Activities.StreamRunKeepsOrder | src/activity/activity.ts:286-313 | every run of turns keeps the push order (the stream is finished exactly when the last pushed result finishes the batch, no earlier one does, and a failed stream did not finish) and pushes at most one result per turn |
| Activities.StreamRunPushesArrived | src/activity/activity.ts:272-311 | the results pushed are a prefix of those already pushed and queued followed by the ones that arrive, in arrival order |
| Activities.StreamRunFailsForAReason | src/activity/activity.ts:290-306 | a stream that fails had an error reported already, or saw a turn with an error, a stopped activity or a passed deadline |
| Activities.StreamFromStart | src/activity/activity.ts:257-320 | from a fresh stream, the pushed results are arrived ones in order, at most one per turn, it ends exactly after a finishing result, and fails only after a failing turn |
| Activities.QuietRoundsDrainQueue | src/activity/activity.ts:308-313 | progress: with no error seen, as many quiet turns as there are queued results push all of them in arrival order |
| Activities.FirstErrorEndsStream | src/activity/activity.ts:301-307 | the first turn that sees an error ends the stream with all the errors so far and pushes nothing more |
| Activities.StoppedOrLateEndsBothLoops | src/activity/activity.ts:200-207 | once the deadline has passed or the activity has stopped, both readers end with an error and push nothing |
| Activities.Activity.constructor | src/activity/activity.ts:47-60 | a new activity is running in state New |
| Activities.Activity.Stop | src/activity/activity.ts:126-130 | stop marks the activity stopped and answers true when the destroy call succeeds, otherwise the destroy error |
| Activities.Activity.GetState | src/activity/activity.ts:138-155 | the state is the first reported name looked up, recorded as a change only when it differs; a failed query is passed on |
| Activities.GetStateTwice | src/activity/activity.ts:138-155 | asking for the state twice with the same answer records at most one change |
| Activities.StopEndsPolling | src/activity/activity.ts:126-130 | after stop, polling ends with an error and pushes nothing |
| Batches.FirstTerminal | src/task/batch.ts:90-110 | the settling event is the first end or error of the stream, every event before it being data |
| Batches.AsData | src/task/batch.ts:90-94 | a list of results streamed as data events, one per result in order |
| Batches.CollectedInArrivalOrder | src/task/batch.ts:90-110 | results streamed before the settling event are collected exactly, in arrival order, and nothing after it |
| Batches.PassThrough | src/task/batch.ts:133-149 | the chunks passed on are the longest prefix without an error chunk, and the first chunk not passed is an error |
| Batches.Batch.constructor | src/task/batch.ts:16-22 | a new batch has an empty script |
| Batches.Batch.Run | src/task/batch.ts:39-46 | with arguments the executable is appended as given, otherwise the line is appended as a /bin/sh -c command; the same batch is returned |
| Batches.Batch.Transfer | src/task/batch.ts:48-51 | a transfer command is appended and the same batch returned |
| Batches.Batch.UploadFile | src/task/batch.ts:53-56 | an upload command is appended and the same batch returned |
| Batches.Batch.UploadJson | src/task/batch.ts:58-62 | the encoded JSON is appended as an upload of data and the same batch returned |
| Batches.Batch.UploadData | src/task/batch.ts:64-67 | an upload of the data is appended and the same batch returned |
| Batches.Batch.DownloadFile | src/task/batch.ts:69-72 | a download command is appended and the same batch returned |
| Batches.Batch.End | src/task/batch.ts:77-119 | a failed preparation rejects without calling after; a failed send calls after with no results and rejects with the send error, or with after's error when that call fails; otherwise after receives the results collected before the stream settles, and the outcome is after's on end and the stream's error on error |
| Batches.PassChunks | src/task/batch.ts:133-149 | the transform passes exactly the chunks before the first error chunk, and fails with that chunk's message iff there is one |
| Batches.Batch.EndStream | src/task/batch.ts:121-154 | chunks pass until the first error chunk, which fails the stream with its message and trimmed output; when every chunk passes, after receives them once and the stream ends with the activity stream's own error, if it has one; after receives the passed chunks once more when an error chunk failed the stream; a failed send calls after with no results and rejects with the send error, or with after's error when that call fails |
| Batches.BuildInOrder | src/task/batch.ts:39-51 | chained builder calls append their commands to one batch in call order |
| Strings.Trim | src/task/batch.ts:138 | the trimmed text is a slice of the original with only white space before and after it, and it neither starts nor ends with white space |
| Strings.TrimIdempotent | src/task/batch.ts:138 | trimming twice is trimming once |
| Strings.SplitOn | src/network/network.module.ts:45-46 | splitting yields at least one piece and no piece holds the separator |
| Strings.SplitHead | src/network/network.module.ts:45 | the part before the first separator holds no separator and is a prefix of the text, the whole text when there is none |
| Strings.SplitSecond | src/network/network.module.ts:46 | the part after the first separator exists exactly when the text holds one, and holds no separator itself |
| Strings.ParseIntPrefix | src/network/network.module.ts:46 | the decimal reading that parseInt falls back on: the value of the leading digits, missing exactly when the text does not start with a digit |
| Strings.ParseUnsigned | src/network/network.module.ts:46 | after the sign, "0x" or "0X" selects base 16 and anything else base 10; NaN exactly when no digit of that base follows |
| Strings.ParseSigned | src/network/network.module.ts:46 | a sign changes the value and not whether parseInt yields NaN |
| Strings.ParseInt | src/network/network.module.ts:46 | parseInt without a radix yields NaN exactly when, after the leading white space and one optional sign, neither a decimal digit nor "0x" followed by a hexadecimal digit comes next |
| Strings.TrimStartOfSpace | src/network/network.module.ts:46 | one leading white-space character is skipped like the rest |
| Strings.ParseIntSkipsSpace | src/network/network.module.ts:46 | leading white space, line terminators included, does not change what parseInt reads |
| Strings.ParseIntPlus | src/network/network.module.ts:46 | a '+' before the number changes nothing |
| Strings.ParseIntMinus | src/network/network.module.ts:46 | a '-' before the number negates it and keeps NaN as NaN |
| Strings.ParseIntOfDigits | src/network/network.module.ts:46 | a text starting with a decimal digit and no "0x" reads as the value of its leading digits |
| Strings.SignedDigits | src/network/network.module.ts:46 | a sign before decimal digits: '+' keeps their value and '-' negates it |
| Strings.PlusDigits | src/network/network.module.ts:46 | '+' before decimal digits reads as their value |
| Strings.MinusDigits | src/network/network.module.ts:46 | '-' before decimal digits reads as their negated value |
| Strings.DigitsThenText | src/network/network.module.ts:46 | parseInt stops at the first character that is not a digit, so "24 bits" reads as 24 |
| Strings.SpaceAfterSignIsNaN | src/network/network.module.ts:46 | white space between the sign and the digits makes the result NaN |
| Strings.SpacedPrefix | src/network/network.module.ts:46 | any white-space character before "24" still reads as 24 |
| Strings.SignedPrefix | src/network/network.module.ts:46 | "+24" reads as 24 and "-24" as -24 |
| Strings.SignedZero | src/network/network.module.ts:46 | "+0" and "-0" read as 0 |
| Strings.HexPrefix | src/network/network.module.ts:46 | "0x18" and "0X18" read as 24, and "0x" alone is NaN |
| Strings.ParseText24 | src/network/network.module.ts:46 | "24" reads as 24 |
| Strings.ParseDigit | src/network/network.module.ts:46 | a single digit reads as its value |
| Strings.ParseIntRoundTrip | src/network/network.module.ts:46 | the decimal text of any number parses back to that number |
| Strings.DecimalRoundTrip | src/network/network.module.ts:46-54 | the decimal text of any number reads back as that number |
| Seqs.FilterMembership | src/market/market.module.ts:338-339 | filtering keeps exactly the elements satisfying the predicate |
| Seqs.IndexByLastWins | yajsapi/runner/index.ts:409-413 | indexing entries by key keeps, for each key present, the last entry with that key |
| YagnaApis.BearerHeaderRoundTrip | src/shared/utils/yagna/yagnaApi.ts:67-69 | the Authorization header is "Bearer " followed by exactly the key |
| YagnaApis.NewYagnaApi | src/shared/utils/yagna/yagnaApi.ts:54-125 | construction fails with "Yagna API key not defined" exactly when no key is found; otherwise each client has its service base URL and the key's bearer header, except the version client, which sends none |
| YagnaApis.ServiceBasesDistinct | src/shared/utils/yagna/yagnaApi.ts:71-107 | the five service clients have five different base URLs |
| YagnaApis.AtLeast | src/shared/utils/yagna/yagnaApi.ts:144 | every version is at least itself; the major numbers decide when they differ, then the minor ones, then the patch ones |
| YagnaApis.AtLeastTransitive | src/shared/utils/yagna/yagnaApi.ts:144 | the version order is transitive |
| YagnaApis.AtLeastTotal | src/shared/utils/yagna/yagnaApi.ts:144 | any two versions are ordered, and versions ordered both ways are equal |
| YagnaApis.FirstDigitFrom | src/shared/utils/yagna/yagnaApi.ts:137 | the search stops at the first digit, or at the end when there is none |
| YagnaApis.DottedPart | src/shared/utils/yagna/yagnaApi.ts:137 | a dotted part consumes the dot and at least one digit |
| YagnaApis.Coerce | src/shared/utils/yagna/yagnaApi.ts:137-142 | coercing a version text fails exactly when the text holds no digit |
| YagnaApis.CoerceVersionText | src/shared/utils/yagna/yagnaApi.ts:137 | the text of a version coerces back to that version |
| YagnaApis.AssertSupportedVersion | src/shared/utils/yagna/yagnaApi.ts:133-161 | a failed fetch, an unreadable version and a version below 0.13.2 fail with their own errors; a supported version yields its normalised text |
| YagnaApis.SupportIsUpwardClosed | src/shared/utils/yagna/yagnaApi.ts:144 | a version at least as new as a supported one is supported |
| YagnaApis.MinimumText | src/shared/utils/yagna/yagnaApi.ts:18 | the minimum version's text is 0.13.2 |
| YagnaApis.VersionGate | src/shared/utils/yagna/yagnaApi.ts:133-152 | the text of a version passes exactly when the version is at least the minimum, and then comes back unchanged |
| YagnaApis.MinimumPasses | src/shared/utils/yagna/yagnaApi.ts:18-152 | 0.13.2 itself passes |
| YagnaApis.PreviousPatchRefused | src/shared/utils/yagna/yagnaApi.ts:144 | 0.13.1 and 0.12.99 are refused and 1.0.0 is accepted |
| YagnaApis.UnreadableVersionRefused | src/shared/utils/yagna/yagnaApi.ts:137-142 | a version text without digits is refused |
| GolemNetworks.MergedProtocol | src/golem-network/golem-network.ts:161-168 | a missing protocol option defaults to gftp, an explicitly undefined one stays undefined, and a given one is kept |
| GolemNetworks.CreateStorageProvider | src/golem-network/golem-network.ts:444-458 | "ws" gives the WebSocket provider, any other name gives GFTP, a provider object is used as it is, and no protocol gives the null provider |
| GolemNetworks.DefaultProtocolIsGftp | src/golem-network/golem-network.ts:160-183 | without the option the storage is GFTP, and with it set to undefined the storage is the null provider |
| GolemNetworks.Configure | src/golem-network/golem-network.ts:160-240 | an overridden yagna is used without a key; otherwise the API is built from the options and its failure is the constructor's; every overridable service is the override when given, else the built-in one, and so is the storage |
| GolemNetworks.OverriddenYagnaNeedsNoKey | src/golem-network/golem-network.ts:175-181 | with a yagna override the network is built even without any API key |
| GolemNetworks.MissingKeyFails | src/golem-network/golem-network.ts:174-239 | without an override and without a key the constructor fails with "Yagna API key not defined" |
| GolemNetworks.CleanupActions | src/golem-network/golem-network.ts:327-339 | a lease's cleanup finalizes it first and releases its allocation last, removing its network node in between only when there is one; a pool is drained before its allocation is released |
| GolemNetworks.CleanupReleasesEveryAllocation | src/golem-network/golem-network.ts:265-266 | disconnecting releases the allocation of every oneOf and manyOf call |
| GolemNetworks.ShutdownActions | src/golem-network/golem-network.ts:267-271 | storage is closed first; the remaining steps run in order only while the earlier ones succeed |
| GolemNetworks.GolemNetwork.constructor | src/golem-network/golem-network.ts:160-240 | a new network is not connected and has no cleanup tasks |
| GolemNetworks.GolemNetwork.IsConnected | src/golem-network/golem-network.ts:420-422 | the answer is the connection flag |
| GolemNetworks.GolemNetwork.Connect | src/golem-network/golem-network.ts:247-258 | connect succeeds exactly when yagna, payment and storage all start, in that order, stopping at the first failure; success emits "connected" and sets the flag, failure emits the error |
| GolemNetworks.GolemNetwork.Disconnect | src/golem-network/golem-network.ts:265-275 | disconnect runs every cleanup task and then the shutdown steps; only a full shutdown emits "disconnected" and clears the flag |
| GolemNetworks.GolemNetwork.OneOf | src/golem-network/golem-network.ts:294-342 | oneOf allocates the budget for the rent hours in seconds, collects proposals, signs an agreement, adds a network node when asked, creates the lease, stops collecting and registers the lease's cleanup; a failed signing registers nothing |
| GolemNetworks.GolemNetwork.ManyOf | src/golem-network/golem-network.ts:379-418 | manyOf allocates, collects proposals, creates a pool of the given concurrency and registers unsubscribing and then draining |
| GolemNetworks.ConnectAndRent | src/golem-network/golem-network.ts:247-342 | connecting and renting one resource for an hour performs the connection steps and then the oneOf steps, leaving one lease cleanup |
| GolemNetworks.OneOfThenDisconnect | src/golem-network/golem-network.ts:265-342 | renting one resource and disconnecting finalizes the lease before releasing the allocation and then shuts the services down |
| Runners.PricesWithin | yajsapi/runner/index.ts:123-127 | the prices pass exactly when every counter is known and priced at most its maximum |
| Runners.ScoreOffer | yajsapi/runner/index.ts:114-130 | the score is neutral or rejected, and neutral exactly for a PAYU offer within the fixed price and every counter's maximum |
| Runners.CheaperOfferStillAccepted | yajsapi/runner/index.ts:114-130 | an offer no dearer than an accepted one, counter by counter, is accepted too |
| Runners.UnknownCounterRejected | yajsapi/runner/index.ts:124 | a counter without a maximum rejects the offer whatever its price |
| Runners.DefaultLimits | yajsapi/runner/index.ts:69-76 | with the default limits an offer at exactly the maxima is accepted, a CPU price above 0.02 is rejected, and a scheme other than PAYU is rejected |
| Runners.Items | yajsapi/runner/index.ts:385-415 | at most one buffer item comes from each sighting |
| Runners.ReceiveInvoice | yajsapi/runner/index.ts:298-310 | an invoice for an agreement waiting to be paid is accepted and the agreement leaves the waiting set; otherwise the invoice is kept for its agreement |
| Runners.AcceptPayment | yajsapi/runner/index.ts:317-342 | without a kept invoice the agreement joins the waiting set and the call answers false; with one the invoice is removed, accepted when there is an allocation, and the call answers true |
| Runners.PaymentOrderIrrelevant | yajsapi/runner/index.ts:293-342 | whether the invoice arrives before or after payment is requested, it is accepted once and nothing is left waiting |
| Runners.ReceiveKeepsConsistent | yajsapi/runner/index.ts:298-310 | receiving an invoice keeps every waiting agreement without a kept invoice |
| Runners.AcceptKeepsConsistent | yajsapi/runner/index.ts:317-342 | requesting payment keeps every waiting agreement without a kept invoice |
| Runners.ReceiveAllKeepsAccepted | yajsapi/runner/index.ts:295-314 | receiving invoices only adds accepted invoices and only shrinks the waiting set |
| Runners.ReceiveInvoiceAsWritten | yajsapi/runner/index.ts:309 | as written, an invoice for an agreement not yet waiting is stored as a property of the Map, not an entry, so the kept invoices do not change |
| Runners.EarlyInvoiceLostAsWritten | yajsapi/runner/index.ts:309-326 | as written, an invoice that arrives before payment is requested is never accepted and its agreement waits forever |
| Runners.Engine.constructor | yajsapi/runner/index.ts:263-291 | a new engine has an empty offer buffer, zero counters, no workers and no payments |
| Runners.Engine.FindOffers | yajsapi/runner/index.ts:344-418 | every sighting counts as collected, each confirmed draft counts and replaces its issuer's buffer entry, and the events follow the sightings in order |
| Runners.Engine.StartWorker | yajsapi/runner/index.ts:561-609 | when not cancelled, with offers and below the worker limit, the picked offer leaves the buffer and a worker starts exactly when the agreement is made and confirmed; the worker count never passes the limit |
| Runners.Engine.ProcessInvoices | yajsapi/runner/index.ts:293-315 | invoices are received in order until payment is closing with nothing left to pay, and the book is the result of receiving those with the corrected receive (an early invoice kept as a Map entry; the code as written is ReceiveInvoiceAsWritten, see Findings) |
| Runners.Engine.AcceptPaymentForAgreement | yajsapi/runner/index.ts:317-342 | the engine's book follows AcceptPayment, emitting PaymentPrepared then PaymentAccepted or PaymentQueued |
| Runners.HandleAllCounts | yajsapi/runner/index.ts:365-416 | handling sightings adds one collected per sighting, one confirmed per buffered item, and their events |
| Runners.HandleAllBuffer | yajsapi/runner/index.ts:409-413 | the buffer after handling sightings is the old buffer updated with the latest item per issuer |
| Runners.HandleSightings | yajsapi/runner/index.ts:365-416 | the loop over sightings computes what handling them one by one does |
| Runners.BufferKeepsLastSighting | yajsapi/runner/index.ts:409-413 | the buffer entry of an issuer is one of that issuer's items |
| Runners.ItemsComeFromKeptSightings | yajsapi/runner/index.ts:385-415 | every buffered item comes from a confirmed draft that was not rejected |
| Stats.EmptyTable | tests/unit/stats.test.ts:33 | a new aggregator holds no records |
| Stats.Put | tests/unit/stats.test.ts:32-48 | adding a record stores it under its id, appending the id only when it is new |
| Stats.All | tests/unit/stats.test.ts:42-48 | all records, one per id, in first-insertion order |
| Stats.Rewrite | tests/unit/stats.test.ts:98-122 | rewriting a known id replaces its record in place; an unknown id changes nothing |
| Stats.GetById | tests/unit/stats.test.ts:37-41 | a record is found exactly for an id that was added, and it is the record at that id's place in all records |
| Stats.PutNewAppends | tests/unit/stats.test.ts:37-48 | adding a new id appends its record to all records and makes it findable by id |
| Stats.RewriteIsPointUpdate | tests/unit/stats.test.ts:98-122 | rewriting changes exactly one position of all records and keeps their number |
| Stats.PutTwice | tests/unit/stats.test.ts:315-321 | adding the same record twice is the same as adding it once |
| Stats.CountPointUpdate | tests/unit/stats.test.ts:130-140 | changing one element changes a count by at most that element's contribution |
| Stats.WithStatus | tests/unit/stats.test.ts:98-122 | setting an agreement's status keeps the table well formed |
| Stats.SettlingMovesOneAgreement | tests/unit/stats.test.ts:130-140 | confirming or rejecting a pending agreement moves exactly one agreement out of Pending into the new status and leaves the others alone |
| Stats.Agreements.constructor | tests/unit/stats.test.ts:90 | a new Agreements aggregator is empty |
| Stats.Agreements.Add | tests/unit/stats.test.ts:89-97 | an added agreement is recorded as pending |
| Stats.Agreements.Confirm | tests/unit/stats.test.ts:98-112 | confirm sets the agreement's status to Confirmed |
| Stats.Agreements.Reject | tests/unit/stats.test.ts:113-122 | reject sets the agreement's status to Rejected |
| Stats.Agreements.GetByProviderId | tests/unit/stats.test.ts:123-129 | the agreements returned are exactly those of all agreements with that provider, as many as there are |
| Stats.Agreements.GetByStatus | tests/unit/stats.test.ts:130-140 | the agreements returned are exactly those of all agreements in that status, as many as there are |
| Stats.ByProviderIsExact | tests/unit/stats.test.ts:123-129 | the agreements found by provider are exactly those of that provider, as many as the count |
| Stats.NewTask | tests/unit/stats.test.ts:331-346 | a new task is pending, with no stop time, retries or reason |
| Stats.TaskTransitionsTouchOnlyTheirFields | tests/unit/stats.test.ts:347-398 | retry sets only the retry count, reject sets stop time, status and reason, finish sets stop time and status |
| Stats.Tasks.constructor | tests/unit/stats.test.ts:332 | a new Tasks aggregator is empty |
| Stats.Tasks.Add | tests/unit/stats.test.ts:331-346 | an added task is recorded as a new pending task |
| Stats.Tasks.Retry | tests/unit/stats.test.ts:347-363 | retry rewrites a known task's retry count and ignores an unknown id |
| Stats.Tasks.Reject | tests/unit/stats.test.ts:364-381 | reject marks a known task rejected with its stop time and reason and ignores an unknown id |
| Stats.Tasks.Finish | tests/unit/stats.test.ts:382-398 | finish marks a known task finished with its stop time and ignores an unknown id |
| Stats.Providers.constructor | tests/unit/stats.test.ts:304 | a new Providers aggregator is empty |
| Stats.Providers.Add | tests/unit/stats.test.ts:302-321 | adding a provider stores it under its id, once |
| Stats.GetByField | tests/unit/stats.test.ts:49-56 | the records found by a field value are exactly those whose field has that value, as many as there are such records |
| Stats.UnknownFieldIsEmpty | tests/unit/stats.test.ts:58-65 | looking up a field the records do not have finds nothing |

## Left out

- Timers and real time: the republish interval of `publishDemand` (src/market/market.module.ts:260-284), the real-time side of `bufferTime`, and the `sleep` polling and deadlines in activity.ts and `PaymentService.end`. Each one is represented by an explicit tick or "deadline passed" input.
- Concurrency and async plumbing are modelled as sequential steps. This covers Promise and Observable scheduling, EventEmitter emission, AbortController wiring, the `Promise.any` worker loop (yajsapi/runner/index.ts:618-701) and parallel `withRental` calls.
- Jobs.JobManager.Close: marks every running job as aborted, as `cancel` does. It does not wait for each job's "ended" event, which is asynchronous.
- Jobs.Job.Cancel: states the abort but not the wait for the "ended" event, for the same reason.
- I/O and foreign calls are not modelled, because their outcomes are parameters. These are the Yagna and ya-ts-client REST calls, EventSource and `fetch`, the gftp child process (src/storage/gftp.ts), Allocation's HTTP wrapper (src/payment/allocation.ts), and DemandFactory (src/market/factory.ts).
- `negotiateProposal`, `proposeAgreement`, `terminateAgreement`, `createLease` and `createLeaseProcessPool` (src/market/market.module.ts:296-390) are single API calls or constructor calls. Only their effect on the funnel is modelled: negotiation requests are recorded.
- The ip-num and semver libraries are replaced by plain 32-bit arithmetic and (major, minor, patch) triples. JSON and TextEncoder are replaced by the encoded bytes, given as input.
- semver's `coerce` ignores numeric parts longer than 16 digits; the version parser here accepts digit runs of any length, so that cap is not modelled.
- Networks.PlanNode: src/network/network.ts, where `getFirstAvailableIpAddress` lives, is not part of this model. The chosen address is the lowest free one between the network address and the broadcast address, both excluded. The tests show the first nodes at .1, .2 and .3; excluding the broadcast address is an assumption.
- RentalPools.ResourceRentalPool.DrainAndClear: destroys the borrowed rentals at once, together with the available ones. The pool's own source (src/resource-rental/resource-rental-pool.ts) is not part of this model, so whether it first waits for borrowed rentals to come back is not captured.
- RentalPools.ResourceRentalPool.Acquire: hands out an arbitrary available rental, and a full pool answers MustWait instead of queueing the caller. The order in which waiting acquirers are served is not modelled, for the same reason.
- Jobs.NewJobManager: builds the manager with the corrected storage-provider choice. As written, the constructor throws a TypeError in a browser before it reads the configuration (see Findings and Jobs.ManagerStorageProviderAsWritten). The `payment: { network: "polygon" }` and logger options passed to GolemNetwork are not modelled either, because the network options here have no payment section.
- Floating point: prices and scores are reals. NaN and Infinity appear only where a zero total weight meets `score >= min`.
- Reputation.ReputationSystem.OfferProposalSelector: requires a non-zero total agreement weight, because sorting by NaN or infinite scores is outside a model over reals; the proposal filter and the provider pool do model the division by zero.
- Reputation.CalculateScore: requires a non-zero total weight, since its real result has no NaN or Infinity (dist/golem-js-experimental.js:590).
- `LeastExpensiveLinearPayuMS` (yajsapi/runner/index.ts:143-167) is not modelled, because it is a floating-point formula with for-in index bugs.
- `Math.random` in the selector and in `worker_starter` is a `pick` input. The contract constrains it to the range the source draws from.
- The regular-expression filters `allowProvidersByNameRegex` and `disallowProvidersByNameRegex` (dist/golem-js.mjs:31, 37) are not modelled, because regular expressions are outside this model.
- Batches.Batch.EndStream: assumes the `after` calls made while streaming succeed. Each is followed by `.catch()` with no handler (src/task/batch.ts:141, 151), so a rejection would be an unhandled rejection of the process and not part of the stream's result.
- Deployments.Deployment.constructor: requires the components to pass network validation. The throwing path is modelled by `Deployments.NewDeployment`, which returns the error.
- GolemNetworks.GolemNetwork.OneOf: only the agreement step can fail. Failures of allocation, network-node and lease creation are outcomes of API calls and are not modelled.
- GolemNetworks.GolemNetwork.ManyOf: has no failure path. Failures of the allocation, the demand details, proposal collection and pool creation are outcomes of API calls and are not modelled.
- Stats: the Activities, Allocations, Invoices, Payments and Proposals aggregators of tests/unit/stats.test.ts are not modelled; they are the same id-keyed table with other fields. src/stats is not part of this model. An update for an unknown id changes nothing.
- Files with no modellable logic are not modelled: src/market/api.ts (interfaces only), yajsapi/executor/golem.ts (every method is a stub), declaration and barrel files, and tests that need live providers or a UI.

## Findings

| source | as written | input that shows it | evidently intended | confidence | as-written member | corrected member |
|---|---|---|---|---|---|---|
| dist/golem-js-experimental.js:124-131 | `cancel` guards with `!this.isRunning`, which negates a method reference, so the guard is always false | `cancel()` on a job that was never started (state New) aborts instead of failing, then returns a promise waiting on `events.once("ended")` (dist/golem-js-experimental.js:128-131); a job never started never ends, so that promise never settles and the caller hangs | reject with "Job ... is not running" whenever `isRunning()` is false | not executed | Jobs.CancelGuardDiscrepancy | Jobs.CancelGuard |
| dist/golem-js-experimental.js:674-738 | `start` checks `state != INITIAL` but never moves the state out of INITIAL | `start()` twice on a valid deployment: the second call provisions every network and pool again | the second `start` fails because the state is no longer INITIAL | not executed | Deployments.SecondStartAsWritten | Deployments.SecondStartRefused |
| yajsapi/runner/index.ts:309 | an early invoice is stored with `invoices[id] = invoice`, a property write on a Map that `invoices.has` never sees | an invoice that arrives before `accept_payment_for_agreement` for its agreement | the invoice is found when the payment is requested, whichever comes first | not executed | Runners.EarlyInvoiceLostAsWritten | Runners.PaymentOrderIrrelevant |
| dist/golem-js-experimental.js:175-231 | the constructor calls `getDefaultStorageProvider()` before it assigns `this.glm`, and the browser branch reads `this.glm.services.yagna` | `new JobManager()` in a browser (not Node): reading `services` of undefined throws a TypeError | a browser manager uses the WebSocket storage provider over its own Yagna API | not executed | Jobs.BrowserManagerFailsAsWritten | Jobs.ManagerStorageProvider |
